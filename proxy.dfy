/** The `env::proxy` class: refuse unsupported OS families, validate the
    proxy parameters, then declare proxy.sh / proxy.csh scripts in
    /etc/profile.d that export the proxy variables. The class also brings
    in `env` with its defaults. */
module Proxy {
  import opened Wrappers
  import opened Text
  import opened Catalog
  import opened Env

  /** The parameters of `env::proxy`; an unset optional one is None. */
  datatype ProxyParams = ProxyParams(
    url: Option<Value>,
    port: Option<Value>,
    exceptions: Option<Value>,
    enableSh: Value,
    enableCsh: Value,
    profileFileEnsure: Value,
    profileFile: Value,
    enableHieraArray: Option<Value>)

  function ProxyDefaults(): ProxyParams {
    ProxyParams(None, None, None, Bool(true), Bool(true), Str("present"), Str("proxy"), None)
  }

  /** The defaults with only `url` set. */
  function WithUrl(url: string): ProxyParams {
    ProxyDefaults().(url := Some(Str(url)))
  }

  // ---------------------------------------------------------------------
  // url: a fully qualified domain name

  predicate IsLetter(c: char) {
    ('a' <= c <= 'z') || ('A' <= c <= 'Z')
  }

  predicate LabelChar(c: char) {
    IsLetter(c) || ('0' <= c <= '9') || c == '-'
  }

  /** A host name label: 1 to 63 letters, digits or hyphens, not starting
      or ending with a hyphen. */
  predicate IsLabel(l: string) {
    1 <= |l| <= 63 && l[0] != '-' && l[|l| - 1] != '-'
    && forall k :: 0 <= k < |l| ==> LabelChar(l[k])
  }

  /** The top-level label: a label of at least two letters only. */
  predicate IsTld(l: string) {
    IsLabel(l) && |l| >= 2 && forall k :: 0 <= k < |l| ==> IsLetter(l[k])
  }

  /** At most 255 characters, at least two dot-separated labels, the last
      one a top-level label. */
  predicate IsFqdn(s: string) {
    var labels := Split(s, '.');
    |s| <= 255 && |labels| >= 2
    && (forall k :: 0 <= k < |labels| - 1 ==> IsLabel(labels[k]))
    && IsTld(labels[|labels| - 1])
  }

  /** Building a name from labels: joining well-formed labels with dots
      (at most 255 characters) always gives an FQDN whose labels are the
      ones joined. */
  lemma FqdnFromLabels(labels: seq<string>)
    requires |labels| >= 2
    requires forall k :: 0 <= k < |labels| - 1 ==> IsLabel(labels[k])
    requires IsTld(labels[|labels| - 1])
    requires |Join(labels, '.')| <= 255
    ensures IsFqdn(Join(labels, '.'))
    ensures Split(Join(labels, '.'), '.') == labels
  {
    forall k | 0 <= k < |labels|
      ensures '.' !in labels[k]
    {
      assert IsLabel(labels[k]);
      assert forall j :: 0 <= j < |labels[k]| ==> LabelChar(labels[k][j]);
    }
    SplitJoin(labels, '.');
  }

  /** The name the proxy tests accept. */
  lemma ExampleUrlIsFqdn()
    ensures IsFqdn("proxy.example.com")
  {
    assert "proxy.example.com" == Join(["proxy", "example", "com"], '.');
    FqdnFromLabels(["proxy", "example", "com"]);
  }

  /** Whether a dot-joined name is an FQDN is decided by its labels. */
  lemma FqdnOfLabels(labels: seq<string>)
    requires |labels| >= 1
    requires forall k :: 0 <= k < |labels| ==> '.' !in labels[k]
    ensures IsFqdn(Join(labels, '.')) <==>
              |Join(labels, '.')| <= 255 && |labels| >= 2
              && (forall k :: 0 <= k < |labels| - 1 ==> IsLabel(labels[k]))
              && IsTld(labels[|labels| - 1])
  {
    SplitJoin(labels, '.');
  }

  /** The names the proxy tests refuse: a top-level label with digits
      ('proxy.example.com10'), a single label ('true', '-1'), and a top-level
      label of 67 characters. */
  lemma TldWithDigitsRejected()
    ensures !IsFqdn("proxy.example.com10")
  {
    var p := ["proxy", "example", "com10"];
    assert "proxy.example.com10" == Join(p, '.');
    assert '.' !in p[0] && '.' !in p[1] && '.' !in p[2];
    FqdnOfLabels(p);
    assert !IsLetter(p[2][3]);
  }

  lemma SingleLabelRejected(s: string)
    requires '.' !in s
    ensures !IsFqdn(s)
  {
    SplitJoin([s], '.');
  }

  /** The 67-character top-level label of the over-long test name: "co"
      followed by 65 m's. */
  const LongTld := "co" + seq(65, _ => 'm')
  const LongTldUrl := "proxy.example." + LongTld

  lemma LongTldRejected()
    ensures !IsFqdn(LongTldUrl)
  {
    var q := ["proxy", "example", LongTld];
    assert Join(q[2..], '.') == LongTld;
    assert Join(q[1..], '.') == "example" + ['.'] + LongTld;
    assert LongTldUrl == Join(q, '.');
    assert '.' !in q[0] && '.' !in q[1];
    forall k | 0 <= k < |LongTld|
      ensures LongTld[k] != '.'
    {
      if k >= 2 {
        assert LongTld[k] == seq(65, _ => 'm')[k - 2];
      }
    }
    assert '.' !in q[2];
    FqdnOfLabels(q);
    assert |LongTld| > 63;
  }

  /** `url` is mandatory and must be a string naming an FQDN. */
  function ValidateUrl(v: Option<Value>): (r: Result<string, Error>)
    ensures v.None? ==> r == Err(MissingParameter("env::proxy::url"))
    ensures r.Ok? <==> v.Some? && v.value.Str? && IsFqdn(v.value.s)
    ensures r.Ok? ==> r.value == v.value.s
    ensures v.Some? && r.Err? ==> r.error == InvalidFqdn(v.value)
  {
    match v
    case None => Err(MissingParameter("env::proxy::url"))
    case Some(u) => if u.Str? && IsFqdn(u.s) then Ok(u.s) else Err(InvalidFqdn(u))
  }

  // ---------------------------------------------------------------------
  // port

  const DefaultPort := 8080

  /** The number a port value denotes: an integer, or a string of digits.
      Booleans, floats and arrays denote none. */
  function PortNumber(v: Value): Option<int> {
    match v
    case Int(n) => Some(n)
    case Str(s) => if IsDigits(s) then Some(DecimalValue(s)) else None
    case _ => None
  }

  /** `port`: unset means 8080; otherwise an integer or a numeric string in
      1..65535. The result is the port as it is written into the scripts:
      a string port verbatim, an integer port in decimal. */
  function ValidatePort(v: Option<Value>): (r: Result<string, Error>)
    ensures r.Ok? <==> v.None? || (PortNumber(v.value).Some? && 1 <= PortNumber(v.value).value <= 65535)
    ensures r.Ok? ==> IsDigits(r.value) && 1 <= DecimalValue(r.value) <= 65535
    ensures v.None? ==> r.Ok? && DecimalValue(r.value) == DefaultPort
    ensures r.Ok? && v.Some? ==> DecimalValue(r.value) == PortNumber(v.value).value
    ensures r.Ok? && v.Some? && v.value.Str? ==> r.value == v.value.s
    ensures r.Err? ==> r.error == InvalidPort(v.value)
  {
    match v
    case None =>
      DecimalRoundTrip(DefaultPort);
      Ok(Decimal(DefaultPort))
    case Some(Int(n)) =>
      if 1 <= n <= 65535 then DecimalRoundTrip(n); Ok(Decimal(n)) else Err(InvalidPort(v.value))
    case Some(Str(s)) =>
      if IsDigits(s) && 1 <= DecimalValue(s) <= 65535 then Ok(s) else Err(InvalidPort(v.value))
    case Some(other) => Err(InvalidPort(other))
  }

  /** A port written as an integer or as its numeral is accepted alike and
      lands in the scripts as the same text. */
  lemma PortFormsAgree(n: int)
    requires 1 <= n <= 65535
    ensures ValidatePort(Some(Int(n))) == Ok(Decimal(n))
    ensures ValidatePort(Some(Str(Decimal(n)))) == Ok(Decimal(n))
  {
    DecimalRoundTrip(n);
  }

  /** The ports the proxy tests refuse: 0, 65536, '90900', true and 80.2. */
  lemma RejectedPorts()
    ensures ValidatePort(Some(Int(0))) == Err(InvalidPort(Int(0)))
    ensures ValidatePort(Some(Int(65536))) == Err(InvalidPort(Int(65536)))
    ensures ValidatePort(Some(Str("90900"))) == Err(InvalidPort(Str("90900")))
    ensures ValidatePort(Some(Bool(true))) == Err(InvalidPort(Bool(true)))
    ensures ValidatePort(Some(Float("80.2"))) == Err(InvalidPort(Float("80.2")))
  {
    assert "90"[..1] == "9" && DecimalValue("90") == 90;
    assert "909"[..2] == "90" && DecimalValue("909") == 909;
    assert "9090"[..3] == "909" && DecimalValue("9090") == 9090;
    assert "90900"[..4] == "9090" && DecimalValue("90900") == 90900;
  }

  // ---------------------------------------------------------------------
  // exceptions, enable_sh / enable_csh, enable_hiera_array

  /** `exceptions`: unset means none; otherwise it must be an array (a
      bare string is refused). Elements are kept in order, rendered as text. */
  function ValidateExceptions(v: Option<Value>): (r: Result<seq<string>, Error>)
    ensures v.None? ==> r == Ok([])
    ensures r.Ok? <==> v.None? || v.value.Arr?
    ensures r.Ok? && v.Some? ==> |r.value| == |v.value.items|
    ensures r.Ok? && v.Some? ==> forall k :: 0 <= k < |r.value| ==> r.value[k] == Render(v.value.items[k])
    ensures r.Err? ==> r.error == NotAnArray("env::proxy::exceptions")
  {
    match v
    case None => Ok([])
    case Some(Arr(items)) => Ok(RenderAll(items))
    case Some(_) => Err(NotAnArray("env::proxy::exceptions"))
  }

  /** The words str2bool reads as true or false, without regard to case. */
  const TrueWords := {"1", "t", "y", "true", "yes"}
  const FalseWords := {"", "0", "f", "n", "false", "no"}
  /** The words it reads as false only in lower case. */
  const UndefWords := {"undef", "undefined"}

  /** A value str2bool accepts. */
  predicate BoolLike(v: Value) {
    v.Bool? || (v.Str? && (Lower(v.s) in TrueWords || Lower(v.s) in FalseWords || v.s in UndefWords))
  }

  /** str2bool: a boolean passes through; a string is read case-insensitively
      as one of the true or false words, or case-sensitively as undef or
      undefined (false); anything else is an unknown boolean. */
  function Str2Bool(param: string, v: Value): (r: Result<bool, Error>)
    ensures r.Ok? <==> BoolLike(v)
    ensures v.Bool? ==> r == Ok(v.b)
    ensures v.Str? && r.Ok? ==> (r.value <==> Lower(v.s) in TrueWords)
    ensures r.Err? ==> r.error == UnknownBoolean(param, v)
  {
    match v
    case Bool(b) => Ok(b)
    case Str(s) =>
      var w := Lower(s);
      if w in TrueWords then Ok(true)
      else if w in FalseWords || s in UndefWords then Ok(false)
      else Err(UnknownBoolean(param, v))
    case _ => Err(UnknownBoolean(param, v))
  }

  function BoolText(b: bool): string {
    if b then "true" else "false"
  }

  /** A boolean and its written form read back as the same boolean. */
  lemma Str2BoolRoundTrip(param: string, b: bool)
    ensures Str2Bool(param, Str(BoolText(b))) == Ok(b)
    ensures Str2Bool(param, Bool(b)) == Ok(b)
  {
    assert Lower("true") == "true";
    assert Lower("false") == "false";
  }

  lemma {:induction false} LowerOfLowercase(s: string)
    requires forall k :: 0 <= k < |s| ==> 'a' <= s[k] <= 'z'
    ensures Lower(s) == s
  {
    if s != [] {
      LowerOfLowercase(s[1..]);
    }
  }

  /** undef and undefined are read as false only in lower case. */
  lemma UndefCaseSensitive(param: string)
    ensures Str2Bool(param, Str("undef")) == Ok(false)
    ensures Str2Bool(param, Str("UNDEF")) == Err(UnknownBoolean(param, Str("UNDEF")))
  {
    LowerOfLowercase("undef");
    assert Lower("UNDEF") == "undef";
  }

  /** The strings the proxy tests refuse as booleans. */
  lemma RejectedBooleans(param: string)
    ensures Str2Bool(param, Str("test")) == Err(UnknownBoolean(param, Str("test")))
    ensures Str2Bool(param, Str("yessss")) == Err(UnknownBoolean(param, Str("yessss")))
    ensures Str2Bool(param, Str("nooooo")) == Err(UnknownBoolean(param, Str("nooooo")))
  {
    LowerOfLowercase("test");
    LowerOfLowercase("yessss");
    LowerOfLowercase("nooooo");
  }

  /** `enable_hiera_array` may be unset, a boolean or a string. */
  predicate HieraArrayTypeOk(v: Option<Value>) {
    v.None? || v.value.Bool? || v.value.Str?
  }

  // ---------------------------------------------------------------------
  // Validation as a whole

  /** The parameters after validation. */
  datatype ProxyConfig = ProxyConfig(
    url: string,
    port: string,
    exceptions: seq<string>,
    enableSh: bool,
    enableCsh: bool,
    ensure: FileEnsure,
    name: string)

  predicate ValidConfig(c: ProxyConfig) {
    IsFqdn(c.url) && IsDigits(c.port) && 1 <= DecimalValue(c.port) <= 65535
    && c.ensure != Directory && ValidProfileName(c.name)
  }

  /** Every parameter passes its own rule. */
  predicate ParamsValid(p: ProxyParams) {
    p.url.Some? && p.url.value.Str? && IsFqdn(p.url.value.s)
    && (p.port.None? || (PortNumber(p.port.value).Some? && 1 <= PortNumber(p.port.value).value <= 65535))
    && (p.exceptions.None? || p.exceptions.value.Arr?)
    && BoolLike(p.enableSh) && BoolLike(p.enableCsh)
    && (p.profileFileEnsure == Str("present") || p.profileFileEnsure == Str("absent"))
    && p.profileFile.Str? && ValidProfileName(p.profileFile.s)
    && HieraArrayTypeOk(p.enableHieraArray)
  }

  /** Checks the parameters in a fixed order, stopping at the first failure. */
  function Validate(p: ProxyParams): (r: Result<ProxyConfig, Error>)
    ensures r.Ok? <==> ParamsValid(p)
    ensures r.Ok? ==> ValidConfig(r.value)
    ensures r.Ok? ==> r.value.url == p.url.value.s && r.value.name == p.profileFile.s
    ensures r.Ok? ==> ValidatePort(p.port) == Ok(r.value.port)
                      && ValidateExceptions(p.exceptions) == Ok(r.value.exceptions)
                      && Str2Bool("env::proxy::enable_sh", p.enableSh) == Ok(r.value.enableSh)
                      && Str2Bool("env::proxy::enable_csh", p.enableCsh) == Ok(r.value.enableCsh)
                      && ValidateEnsure("env::proxy::profile_file_ensure", p.profileFileEnsure) == Ok(r.value.ensure)
  {
    var url :- ValidateUrl(p.url);
    var port :- ValidatePort(p.port);
    var exceptions :- ValidateExceptions(p.exceptions);
    var sh :- Str2Bool("env::proxy::enable_sh", p.enableSh);
    var csh :- Str2Bool("env::proxy::enable_csh", p.enableCsh);
    var ensure :- ValidateEnsure("env::proxy::profile_file_ensure", p.profileFileEnsure);
    var name :- ValidateProfileName("env::proxy::profile_file", p.profileFile);
    if !HieraArrayTypeOk(p.enableHieraArray) then
      Err(NotBooleanOrString("env::proxy::enable_hiera_array"))
    else
      Ok(ProxyConfig(url, port, exceptions, sh, csh, ensure, name))
  }

  // ---------------------------------------------------------------------
  // The scripts

  /** Lines, each ended by a newline. */
  function Unlines(lines: seq<string>): string {
    if lines == [] then "" else lines[0] + "\n" + Unlines(lines[1..])
  }

  /** Every line appears in the text. */
  lemma {:induction false} UnlinesContains(lines: seq<string>, k: nat)
    requires k < |lines|
    ensures Contains(Unlines(lines), lines[k])
  {
    if k == 0 {
      ContainsMiddle("", lines[0], "\n" + Unlines(lines[1..]));
      assert "" + lines[0] + ("\n" + Unlines(lines[1..])) == Unlines(lines);
    } else {
      UnlinesContains(lines[1..], k - 1);
      ContainsAfter(lines[0] + "\n", Unlines(lines[1..]), lines[k]);
    }
  }

  function ProxyUrl(c: ProxyConfig): string {
    "http://" + c.url + ":" + c.port
  }

  function NoProxy(c: ProxyConfig): string {
    Join(c.exceptions, ',')
  }

  /** The Bourne shell script: assign the proxy variables, then export them. */
  function ShLines(c: ProxyConfig): seq<string> {
    var u := "\"" + ProxyUrl(c) + "\"";
    var some := c.exceptions != [];
    ["http_proxy=" + u, "https_proxy=" + u, "ftp_proxy=" + u]
    + (if some then ["no_proxy=\"" + NoProxy(c) + "\""] else [])
    + ["export http_proxy https_proxy ftp_proxy" + (if some then " no_proxy" else "")]
  }

  /** The C shell script: set `proxy`, then setenv each variable from it. */
  function CshLines(c: ProxyConfig): seq<string> {
    ["set proxy=\"" + ProxyUrl(c) + "\"",
     "setenv http_proxy $proxy", "setenv https_proxy $proxy", "setenv ftp_proxy $proxy"]
    + (if c.exceptions != [] then ["setenv no_proxy " + NoProxy(c)] else [])
  }

  function ShContent(c: ProxyConfig): string {
    Unlines(ShLines(c))
  }

  function CshContent(c: ProxyConfig): string {
    Unlines(CshLines(c))
  }

  /** The first two lines of the sh script, and the no_proxy and export
      lines when there are exceptions. */
  lemma ShLinesSpelled(c: ProxyConfig)
    ensures |ShLines(c)| >= 4
    ensures ShLines(c)[0] == "http_proxy=\"http://" + c.url + ":" + c.port + "\""
    ensures ShLines(c)[1] == "https_proxy=\"http://" + c.url + ":" + c.port + "\""
    ensures c.exceptions != [] ==> |ShLines(c)| == 5
    ensures c.exceptions != [] ==> ShLines(c)[3] == "no_proxy=\"" + Join(c.exceptions, ',') + "\""
    ensures c.exceptions != [] ==> ShLines(c)[4] == "export http_proxy https_proxy ftp_proxy no_proxy"
  {
    var u := "\"" + ProxyUrl(c) + "\"";
    var head := ["http_proxy=" + u, "https_proxy=" + u, "ftp_proxy=" + u];
    assert "http_proxy=" + u == "http_proxy=\"http://" + c.url + ":" + c.port + "\"";
    assert "https_proxy=" + u == "https_proxy=\"http://" + c.url + ":" + c.port + "\"";
    if c.exceptions != [] {
      var tail := ["no_proxy=\"" + NoProxy(c) + "\""] + ["export http_proxy https_proxy ftp_proxy" + " no_proxy"];
      assert ShLines(c) == head + tail;
    } else {
      assert ShLines(c) == head + [] + ["export http_proxy https_proxy ftp_proxy" + ""];
    }
  }

  /** The sh script assigns http_proxy (and https_proxy) the quoted
      "http://url:port"; with exceptions it assigns no_proxy their
      comma-joined list and exports it. */
  lemma ShContentAssigns(c: ProxyConfig)
    ensures Contains(ShContent(c), "http_proxy=\"http://" + c.url + ":" + c.port + "\"")
    ensures Contains(ShContent(c), "https_proxy=\"http://" + c.url + ":" + c.port + "\"")
    ensures c.exceptions != [] ==> Contains(ShContent(c), "no_proxy=\"" + Join(c.exceptions, ',') + "\"")
    ensures c.exceptions != [] ==> Contains(ShContent(c), "export http_proxy https_proxy ftp_proxy no_proxy")
  {
    ShLinesSpelled(c);
    UnlinesContains(ShLines(c), 0);
    UnlinesContains(ShLines(c), 1);
    if c.exceptions != [] {
      UnlinesContains(ShLines(c), 3);
      UnlinesContains(ShLines(c), 4);
    }
  }

  /** The csh script sets proxy to the quoted "http://url:port"; with
      exceptions it setenvs no_proxy to their comma-joined list. */
  lemma CshContentAssigns(c: ProxyConfig)
    ensures Contains(CshContent(c), "set proxy=\"http://" + c.url + ":" + c.port + "\"")
    ensures c.exceptions != [] ==> Contains(CshContent(c), "setenv no_proxy " + Join(c.exceptions, ','))
  {
    assert CshLines(c)[0] == "set proxy=\"http://" + c.url + ":" + c.port + "\"";
    UnlinesContains(CshLines(c), 0);
    if c.exceptions != [] {
      UnlinesContains(CshLines(c), 4);
    }
  }

  /** The profile.d scripts for a validated configuration. Present: each
      enabled shell gets its script with content, except that Solaris never
      gets a csh script. Absent: both scripts (sh only on Solaris) are
      declared absent, whatever the enable flags. */
  function ProxyFiles(os: OsFamily, c: ProxyConfig): seq<Resource> {
    if c.ensure == Present then
      (if c.enableSh then [ProfileFile(c.name, Sh, Present, Some(ShContent(c)))] else [])
      + (if c.enableCsh && os != Solaris then [ProfileFile(c.name, Csh, Present, Some(CshContent(c)))] else [])
    else
      [ProfileFile(c.name, Sh, c.ensure, None)]
      + (if os != Solaris then [ProfileFile(c.name, Csh, c.ensure, None)] else [])
  }

  /** What the proxy scripts are: root:root 0644 profile.d files of the
      configured name with the configured ensure; Solaris never gets the csh
      one; when present, exactly the enabled shells get one, carrying the
      synthesised content; when absent, both are declared without content. */
  lemma ProxyFilesShape(os: OsFamily, c: ProxyConfig)
    requires c.ensure != Directory
    ensures forall r :: r in ProxyFiles(os, c) ==>
              r.File? && r.owner == "root" && r.group == "root" && r.mode == "0644" && r.ensure == c.ensure
              && (r == ProfileFile(c.name, Sh, c.ensure, r.content) || r == ProfileFile(c.name, Csh, c.ensure, r.content))
    ensures os == Solaris ==> !Declares(ProxyFiles(os, c), ProfileTitle(c.name, Csh))
    ensures c.ensure == Present ==> (Declares(ProxyFiles(os, c), ProfileTitle(c.name, Sh)) <==> c.enableSh)
    ensures c.ensure == Present ==> (Declares(ProxyFiles(os, c), ProfileTitle(c.name, Csh)) <==> c.enableCsh && os != Solaris)
    ensures c.ensure == Absent ==> Declares(ProxyFiles(os, c), ProfileTitle(c.name, Sh))
    ensures c.ensure == Absent ==> (Declares(ProxyFiles(os, c), ProfileTitle(c.name, Csh)) <==> os != Solaris)
    ensures forall r :: r in ProxyFiles(os, c) && r.title == ProfileTitle(c.name, Sh) ==>
              r.content == (if c.ensure == Present then Some(ShContent(c)) else None)
    ensures forall r :: r in ProxyFiles(os, c) && r.title == ProfileTitle(c.name, Csh) ==>
              r.content == (if c.ensure == Present then Some(CshContent(c)) else None)
  {
    ShellTitlesDiffer(c.name);
  }

  /** The catalog of `env::proxy` on a host of family `os`: the defaults of
      class `env`, then the proxy scripts. */
  function ProxyCatalog(os: OsFamily, p: ProxyParams): (r: Result<seq<Resource>, Error>)
    ensures os.Unsupported? ==> r == Err(UnsupportedPlatform(os.detected))
    ensures !os.Unsupported? ==> (r.Ok? <==> ParamsValid(p))
    ensures r.Ok? ==> EnvCatalog(os, EnvDefaults()) == Ok(SolarisExtras(os))
                      && SolarisExtras(os) <= r.value
    ensures r.Ok? && os == Solaris ==> !Declares(r.value, ProfileTitle(p.profileFile.s, Csh))
  {
    if os.Unsupported? then Err(UnsupportedPlatform(os.detected))
    else
      var c :- Validate(p);
      EnvDefaultCatalog(os);
      assert ProfileTitle(c.name, Csh) != "profile_d" && ProfileTitle(c.name, Csh) != "etc_profile";
      ProxyFilesShape(os, c);
      Ok(SolarisExtras(os) + ProxyFiles(os, c))
  }

  // ---------------------------------------------------------------------
  // The catalog, case by case

  predicate Supported(os: OsFamily) {
    !os.Unsupported?
  }

  /** An osfamily fact other than RedHat, Suse, Debian or Solaris (CoreOS,
      say) fails, naming the fact. */
  lemma ProxyUnsupportedFamily(fact: string, p: ProxyParams)
    requires fact !in {"RedHat", "Suse", "Debian", "Solaris"}
    ensures ProxyCatalog(Classify(fact), p) == Err(UnsupportedPlatform(fact))
  {
  }

  /** Without `url` every supported family fails, whatever else is set. */
  lemma ProxyUrlMandatory(os: OsFamily, p: ProxyParams)
    requires Supported(os) && p.url.None?
    ensures ProxyCatalog(os, p) == Err(MissingParameter("env::proxy::url"))
  {
  }

  /** A url that is not an FQDN fails. */
  lemma ProxyUrlRejected(os: OsFamily, url: string)
    requires Supported(os) && !IsFqdn(url)
    ensures ProxyCatalog(os, WithUrl(url)) == Err(InvalidFqdn(Str(url)))
  {
  }

  lemma DefaultPortText()
    ensures Decimal(DefaultPort) == "8080"
  {
    assert Decimal(8) == "8";
    assert Decimal(80) == "80";
    assert Decimal(808) == "808";
  }

  /** The configuration the defaults and a url validate to. */
  function DefaultConfig(url: string): ProxyConfig {
    ProxyConfig(url, "8080", [], true, true, Present, "proxy")
  }

  lemma ValidateDefaults(url: string)
    requires IsFqdn(url)
    ensures Validate(WithUrl(url)) == Ok(DefaultConfig(url))
  {
    DefaultPortText();
  }

  lemma ValidateWithName(url: string, name: string)
    requires IsFqdn(url) && ValidProfileName(name)
    ensures Validate(WithUrl(url).(profileFile := Str(name))) == Ok(DefaultConfig(url).(name := name))
  {
    ValidateDefaults(url);
  }

  lemma ValidateWithExceptions(url: string, exceptions: seq<string>)
    requires IsFqdn(url)
    ensures Validate(WithUrl(url).(exceptions := Some(Arr(Strs(exceptions)))))
            == Ok(DefaultConfig(url).(exceptions := exceptions))
  {
    RenderStrs(exceptions);
    ValidateDefaults(url);
  }

  /** On a supported family the catalog is the env defaults followed by the
      scripts of whatever the parameters validate to. */
  lemma ProxyCatalogOf(os: OsFamily, p: ProxyParams, c: ProxyConfig)
    requires Supported(os) && Validate(p) == Ok(c)
    ensures ProxyCatalog(os, p) == Ok(SolarisExtras(os) + ProxyFiles(os, c))
  {
  }

  lemma ProxyNames()
    ensures ProfileTitle("proxy", Sh) == "profile_d_proxy_sh"
    ensures ProfilePath("proxy", Sh) == "/etc/profile.d/proxy.sh"
    ensures ProfileTitle("proxy", Csh) == "profile_d_proxy_csh"
    ensures ProfilePath("proxy", Csh) == "/etc/profile.d/proxy.csh"
  {
  }

  /** The two present proxy scripts, spelled out. */
  lemma DefaultScriptFiles(c: ProxyConfig)
    ensures ProfileFile("proxy", Sh, Present, Some(ShContent(c)))
            == File("profile_d_proxy_sh", "/etc/profile.d/proxy.sh", Present, "root", "root", "0644", Some(ShContent(c)))
    ensures ProfileFile("proxy", Csh, Present, Some(CshContent(c)))
            == File("profile_d_proxy_csh", "/etc/profile.d/proxy.csh", Present, "root", "root", "0644", Some(CshContent(c)))
  {
    ProxyNames();
  }

  /** With only `url` set: proxy.sh, present, root:root 0644 on every
      family; proxy.csh the same except on Solaris, which gets none. */
  lemma ProxyDefaultScripts(os: OsFamily, url: string)
    requires Supported(os) && IsFqdn(url)
    ensures var c := DefaultConfig(url);
            ProxyCatalog(os, WithUrl(url)) == Ok(SolarisExtras(os)
              + [File("profile_d_proxy_sh", "/etc/profile.d/proxy.sh", Present, "root", "root", "0644", Some(ShContent(c)))]
              + (if os == Solaris then []
                 else [File("profile_d_proxy_csh", "/etc/profile.d/proxy.csh", Present, "root", "root", "0644", Some(CshContent(c)))]))
  {
    var c := DefaultConfig(url);
    ValidateDefaults(url);
    DefaultProxyFiles(os, c);
    var sh := File("profile_d_proxy_sh", "/etc/profile.d/proxy.sh", Present, "root", "root", "0644", Some(ShContent(c)));
    var tail := if os == Solaris then []
                else [File("profile_d_proxy_csh", "/etc/profile.d/proxy.csh", Present, "root", "root", "0644", Some(CshContent(c)))];
    ProxyCatalogOfFiles(os, WithUrl(url), c, sh, tail);
  }

  /** The catalog when the scripts are a given first one and the rest. */
  lemma ProxyCatalogOfFiles(os: OsFamily, p: ProxyParams, c: ProxyConfig, first: Resource, tail: seq<Resource>)
    requires Supported(os) && Validate(p) == Ok(c)
    requires ProxyFiles(os, c) == [first] + tail
    ensures ProxyCatalog(os, p) == Ok(SolarisExtras(os) + [first] + tail)
  {
    ProxyCatalogOf(os, p, c);
    AppendAssoc(SolarisExtras(os), [first], tail);
  }

  /** The scripts of the default configuration, spelled out. */
  lemma DefaultProxyFiles(os: OsFamily, c: ProxyConfig)
    requires c == DefaultConfig(c.url)
    ensures ProxyFiles(os, c)
            == [File("profile_d_proxy_sh", "/etc/profile.d/proxy.sh", Present, "root", "root", "0644", Some(ShContent(c)))]
               + (if os == Solaris then []
                  else [File("profile_d_proxy_csh", "/etc/profile.d/proxy.csh", Present, "root", "root", "0644", Some(CshContent(c)))])
  {
    DefaultScriptFiles(c);
  }

  /** ... and those scripts point http_proxy / proxy at port 8080. */
  lemma DefaultScriptsUsePort8080(url: string)
    ensures Contains(ShContent(DefaultConfig(url)), "http_proxy=\"http://" + url + ":8080\"")
    ensures Contains(CshContent(DefaultConfig(url)), "set proxy=\"http://" + url + ":8080\"")
  {
    var c := DefaultConfig(url);
    ShContentAssigns(c);
    CshContentAssigns(c);
    assert "http_proxy=\"http://" + c.url + ":" + c.port + "\"" == "http_proxy=\"http://" + url + ":8080\"";
    assert "set proxy=\"http://" + c.url + ":" + c.port + "\"" == "set proxy=\"http://" + url + ":8080\"";
  }

  /** enable_sh and enable_csh both 'true' declare both scripts; both false
      declare neither. */
  lemma ProxyEnableFlags(url: string)
    requires IsFqdn(url)
    ensures var p := WithUrl(url).(enableSh := Str("true"), enableCsh := Str("true"));
            ProxyCatalog(RedHat, p).Ok?
            && Declares(ProxyCatalog(RedHat, p).value, "profile_d_proxy_sh")
            && Declares(ProxyCatalog(RedHat, p).value, "profile_d_proxy_csh")
    ensures ProxyCatalog(RedHat, WithUrl(url).(enableSh := Bool(false), enableCsh := Bool(false))) == Ok([])
  {
    Str2BoolRoundTrip("env::proxy::enable_sh", true);
    var p := WithUrl(url).(enableSh := Str("true"), enableCsh := Str("true"));
    var c := DefaultConfig(url);
    ValidateDefaults(url);
    assert Validate(p) == Ok(c);
    ProxyCatalogOf(RedHat, p, c);
    ProxyNames();
    ProxyFilesShape(RedHat, c);
    var q := WithUrl(url).(enableSh := Bool(false), enableCsh := Bool(false));
    assert Validate(q) == Ok(c.(enableSh := false, enableCsh := false));
    ProxyCatalogOf(RedHat, q, c.(enableSh := false, enableCsh := false));
  }

  /** Any string str2bool does not know fails as an unknown boolean. */
  lemma ProxyUnknownBoolean(url: string, word: string)
    requires IsFqdn(url) && !BoolLike(Str(word))
    ensures ProxyCatalog(RedHat, WithUrl(url).(enableSh := Str(word), enableCsh := Str(word)))
            == Err(UnknownBoolean("env::proxy::enable_sh", Str(word)))
  {
  }

  /** profile_file_ensure absent: both scripts are still declared, with
      ensure absent. */
  lemma ProxyAbsent(url: string)
    requires IsFqdn(url)
    ensures var r := ProxyCatalog(RedHat, WithUrl(url).(profileFileEnsure := Str("absent")));
            r.Ok?
            && File("profile_d_proxy_sh", "/etc/profile.d/proxy.sh", Absent, "root", "root", "0644", None) in r.value
            && File("profile_d_proxy_csh", "/etc/profile.d/proxy.csh", Absent, "root", "root", "0644", None) in r.value
  {
    var p := WithUrl(url).(profileFileEnsure := Str("absent"));
    var c := DefaultConfig(url).(ensure := Absent);
    ValidateDefaults(url);
    assert Validate(p) == Ok(c);
    ProxyCatalogOf(RedHat, p, c);
    ProxyNames();
    assert ProxyFiles(RedHat, c) == [ProfileFile("proxy", Sh, Absent, None), ProfileFile("proxy", Csh, Absent, None)];
  }

  /** profile_file_ensure other than present/absent (directory) fails. */
  lemma ProxyInvalidEnsure(url: string, v: Value)
    requires IsFqdn(url) && v != Str("present") && v != Str("absent")
    ensures ProxyCatalog(RedHat, WithUrl(url).(profileFileEnsure := v))
            == Err(InvalidEnsure("env::proxy::profile_file_ensure", v))
  {
  }

  lemma ProfileNamesSpelled(name: string)
    ensures ProfileTitle(name, Sh) == "profile_d_" + name + "_sh"
    ensures ProfileTitle(name, Csh) == "profile_d_" + name + "_csh"
    ensures ProfilePath(name, Sh) == "/etc/profile.d/" + name + ".sh"
    ensures ProfilePath(name, Csh) == "/etc/profile.d/" + name + ".csh"
  {
  }

  /** profile_file names both scripts and their paths. */
  lemma ProxyProfileName(url: string, name: string)
    requires IsFqdn(url) && ValidProfileName(name)
    ensures var c := DefaultConfig(url).(name := name);
            ProxyCatalog(RedHat, WithUrl(url).(profileFile := Str(name))) == Ok([
              File("profile_d_" + name + "_sh", "/etc/profile.d/" + name + ".sh", Present, "root", "root", "0644", Some(ShContent(c))),
              File("profile_d_" + name + "_csh", "/etc/profile.d/" + name + ".csh", Present, "root", "root", "0644", Some(CshContent(c)))])
  {
    var c := DefaultConfig(url).(name := name);
    ValidateWithName(url, name);
    ProxyCatalogOf(RedHat, WithUrl(url).(profileFile := Str(name)), c);
    ProfileNamesSpelled(name);
    var sh := File("profile_d_" + name + "_sh", "/etc/profile.d/" + name + ".sh", Present, "root", "root", "0644", Some(ShContent(c)));
    var csh := File("profile_d_" + name + "_csh", "/etc/profile.d/" + name + ".csh", Present, "root", "root", "0644", Some(CshContent(c)));
    assert ProfileFile(name, Sh, Present, Some(ShContent(c))) == sh;
    assert ProfileFile(name, Csh, Present, Some(CshContent(c))) == csh;
    assert ProxyFiles(RedHat, c) == [sh, csh];
    assert SolarisExtras(RedHat) + [sh, csh] == [sh, csh];
  }

  /** A profile_file with a dot in it fails. */
  lemma ProxyDottedName(url: string, name: string)
    requires IsFqdn(url) && '.' in name
    ensures ProxyCatalog(RedHat, WithUrl(url).(profileFile := Str(name)))
            == Err(InvalidProfileFile("env::proxy::profile_file", Str(name)))
  {
    ValidateDefaults(url);
  }

  /** The text a valid port value is written as. */
  function PortText(v: Value): string
    requires v.Int? ==> v.i >= 0
  {
    if v.Int? then Decimal(v.i) else if v.Str? then v.s else ""
  }

  lemma ValidateWithPort(url: string, port: Value)
    requires IsFqdn(url)
    requires PortNumber(port).Some? && 1 <= PortNumber(port).value <= 65535
    ensures Validate(WithUrl(url).(port := Some(port))) == Ok(DefaultConfig(url).(port := PortText(port)))
  {
    if port.Int? {
      PortFormsAgree(port.i);
    }
    ValidateDefaults(url);
  }

  /** An accepted port, integer or numeric string, appears verbatim after
      the url in both scripts. */
  lemma ProxyPortInScripts(url: string, port: Value)
    requires IsFqdn(url)
    requires PortNumber(port).Some? && 1 <= PortNumber(port).value <= 65535
    ensures var c := DefaultConfig(url).(port := PortText(port));
            ProxyCatalog(RedHat, WithUrl(url).(port := Some(port))) == Ok(ProxyFiles(RedHat, c))
            && Contains(ShContent(c), "http_proxy=\"http://" + url + ":" + PortText(port) + "\"")
            && Contains(CshContent(c), "set proxy=\"http://" + url + ":" + PortText(port) + "\"")
  {
    var c := DefaultConfig(url).(port := PortText(port));
    ValidateWithPort(url, port);
    ProxyCatalogOf(RedHat, WithUrl(url).(port := Some(port)), c);
    assert SolarisExtras(RedHat) + ProxyFiles(RedHat, c) == ProxyFiles(RedHat, c);
    ShContentAssigns(c);
    CshContentAssigns(c);
  }

  /** A port value that is not an integer or numeral in 1..65535 fails. */
  lemma ProxyPortRejected(url: string, port: Value)
    requires IsFqdn(url)
    requires !(PortNumber(port).Some? && 1 <= PortNumber(port).value <= 65535)
    ensures ProxyCatalog(RedHat, WithUrl(url).(port := Some(port))) == Err(InvalidPort(port))
  {
  }

  /** An array of exceptions is written, comma-joined in order, into
      no_proxy in the sh script (which exports it) and into setenv no_proxy
      in the csh script. */
  lemma ProxyExceptionsInScripts(url: string, exceptions: seq<string>)
    requires IsFqdn(url) && exceptions != []
    ensures var c := DefaultConfig(url).(exceptions := exceptions);
            ProxyCatalog(RedHat, WithUrl(url).(exceptions := Some(Arr(Strs(exceptions))))) == Ok(ProxyFiles(RedHat, c))
            && Contains(ShContent(c), "no_proxy=\"" + Join(exceptions, ',') + "\"")
            && Contains(ShContent(c), "export http_proxy https_proxy ftp_proxy no_proxy")
            && Contains(CshContent(c), "setenv no_proxy " + Join(exceptions, ','))
  {
    var c := DefaultConfig(url).(exceptions := exceptions);
    ValidateWithExceptions(url, exceptions);
    ProxyCatalogOf(RedHat, WithUrl(url).(exceptions := Some(Arr(Strs(exceptions)))), c);
    assert SolarisExtras(RedHat) + ProxyFiles(RedHat, c) == ProxyFiles(RedHat, c);
    ShContentAssigns(c);
    CshContentAssigns(c);
  }

  /** The exceptions the proxy tests give, joined. */
  lemma ExampleExceptionsJoined()
    ensures Join(["localhost", "127.0.0.1", ".example.com"], ',') == "localhost,127.0.0.1,.example.com"
  {
  }

  /** A bare string as `exceptions` fails as not an array. */
  lemma ProxyExceptionsString(url: string, exceptions: string)
    requires IsFqdn(url)
    ensures ProxyCatalog(RedHat, WithUrl(url).(exceptions := Some(Str(exceptions))))
            == Err(NotAnArray("env::proxy::exceptions"))
  {
  }

  /** enable_hiera_array true is accepted; the integer 10 fails. */
  lemma ProxyHieraArray(url: string)
    requires IsFqdn(url)
    ensures ProxyCatalog(RedHat, WithUrl(url).(enableHieraArray := Some(Bool(true)))).Ok?
    ensures ProxyCatalog(RedHat, WithUrl(url).(enableHieraArray := Some(Int(10))))
            == Err(NotBooleanOrString("env::proxy::enable_hiera_array"))
  {
    ValidateDefaults(url);
  }
}

/** What both classes share: Puppet parameter values, the OS family fact,
    the resources a catalog declares, the validation errors, and the
    profile_file / profile_file_ensure checks and the profile.d file shape. */
module Catalog {
  import opened Wrappers
  import opened Text

  /** A parameter value as Puppet hands it over: dynamically typed. A float
      is kept as its literal text, since no arithmetic is done on it. */
  datatype Value =
    | Str(s: string)
    | Bool(b: bool)
    | Int(i: int)
    | Float(text: string)
    | Arr(items: seq<Value>)

  /** The Ruby class name Puppet's type errors quote ("It looks to be a Array"). */
  function TypeName(v: Value): string {
    match v
    case Str(_) => "String"
    case Bool(b) => if b then "TrueClass" else "FalseClass"
    case Int(_) => "Integer"
    case Float(_) => "Float"
    case Arr(_) => "Array"
  }

  /** A value as Ruby's `to_s` / `join` renders it; an array inside an array
      is flattened into the same comma-separated list, as `Array#join` does. */
  function Render(v: Value): string
    decreases v
  {
    match v
    case Str(s) => s
    case Bool(b) => if b then "true" else "false"
    case Int(i) => IntText(i)
    case Float(t) => t
    case Arr(items) => Join(RenderAll(items), ',')
  }

  function RenderAll(items: seq<Value>): (r: seq<string>)
    ensures |r| == |items|
    ensures forall k :: 0 <= k < |items| ==> r[k] == Render(items[k])
    decreases items
  {
    if items == [] then [] else [Render(items[0])] + RenderAll(items[1..])
  }

  /** An array of plain strings, as a manifest writes `['a', 'b']`. */
  function Strs(xs: seq<string>): (vs: seq<Value>)
    ensures |vs| == |xs|
  {
    if xs == [] then [] else [Str(xs[0])] + Strs(xs[1..])
  }

  /** Rendering an array of strings gives back the strings, in order. */
  lemma {:induction false} RenderStrs(xs: seq<string>)
    ensures RenderAll(Strs(xs)) == xs
  {
    if xs != [] {
      assert Strs(xs)[1..] == Strs(xs[1..]);
      RenderStrs(xs[1..]);
    }
  }

  /** The `osfamily` fact, classified. */
  datatype OsFamily = RedHat | Suse | Debian | Solaris | Unsupported(detected: string)

  /** The fact string a family was classified from. */
  function FactOf(os: OsFamily): string {
    match os
    case RedHat => "RedHat"
    case Suse => "Suse"
    case Debian => "Debian"
    case Solaris => "Solaris"
    case Unsupported(d) => d
  }

  /** Reads the `osfamily` fact: the four families the module knows are
      recognised exactly, anything else is unsupported and keeps its name. */
  function Classify(fact: string): (os: OsFamily)
    ensures os.Unsupported? <==> fact !in {"RedHat", "Suse", "Debian", "Solaris"}
    ensures FactOf(os) == fact
  {
    if fact == "RedHat" then RedHat
    else if fact == "Suse" then Suse
    else if fact == "Debian" then Debian
    else if fact == "Solaris" then Solaris
    else Unsupported(fact)
  }

  /** The `ensure` attribute of a file resource. */
  datatype FileEnsure = Present | Absent | Directory

  /** A resource in the catalog. `require` holds the resource references
      (`File[profile_d]`) that must be applied first. */
  datatype Resource =
    | File(title: string, path: string, ensure: FileEnsure, owner: string,
           group: string, mode: string, content: Option<string>)
    | Exec(title: string, command: string, unless: string,
           searchPath: seq<string>, require: seq<string>)

  /** The catalog declares a resource with this title. */
  predicate Declares(rs: seq<Resource>, title: string) {
    exists r :: r in rs && r.title == title
  }

  /** A validation failure. Each aborts the whole catalog. The `param`
      fields carry the fully qualified parameter name, e.g.
      `env::proxy::profile_file`. */
  datatype Error =
    | UnsupportedPlatform(detected: string)
    | MissingParameter(param: string)
    | InvalidFqdn(url: Value)
    | InvalidPort(port: Value)
    | NotAnArray(param: string)
    | UnknownBoolean(param: string, given: Value)
    | InvalidEnsure(param: string, given: Value)
    | InvalidProfileFile(param: string, given: Value)
    | NotAString(param: string, actualType: string)
    | NotBooleanOrString(param: string)

  /** `profile_file_ensure`: the string present or absent, nothing else. */
  function ValidateEnsure(param: string, v: Value): (r: Result<FileEnsure, Error>)
    ensures r == Ok(Present) <==> v == Str("present")
    ensures r == Ok(Absent) <==> v == Str("absent")
    ensures r.Ok? <==> v == Str("present") || v == Str("absent")
    ensures r.Ok? || r == Err(InvalidEnsure(param, v))
  {
    if v == Str("present") then Ok(Present)
    else if v == Str("absent") then Ok(Absent)
    else Err(InvalidEnsure(param, v))
  }

  predicate NameChar(c: char) {
    ('a' <= c <= 'z') || ('A' <= c <= 'Z') || ('0' <= c <= '9') || c == '_' || c == '-'
  }

  /** A profile.d base name: letters, digits, underscore and hyphen. */
  predicate ValidProfileName(s: string) {
    |s| > 0 && forall k :: 0 <= k < |s| ==> NameChar(s[k])
  }

  /** `profile_file` must be a string and match the name pattern. A name
      that passes holds neither a dot nor a slash, so it names exactly one
      file directly inside /etc/profile.d. */
  function ValidateProfileName(param: string, v: Value): (r: Result<string, Error>)
    ensures r.Ok? <==> v.Str? && ValidProfileName(v.s)
    ensures r.Ok? ==> r.value == v.s && '.' !in r.value && '/' !in r.value
    ensures r.Err? ==> r.error == InvalidProfileFile(param, v)
  {
    if v.Str? && ValidProfileName(v.s) then Ok(v.s) else Err(InvalidProfileFile(param, v))
  }

  /** Any name with a dot in it (`test.sh`) is refused. */
  lemma DottedNameRejected(param: string, name: string)
    requires '.' in name
    ensures ValidateProfileName(param, Str(name)) == Err(InvalidProfileFile(param, Str(name)))
  {
  }

  datatype Shell = Sh | Csh

  function Ext(shell: Shell): string {
    match shell
    case Sh => "sh"
    case Csh => "csh"
  }

  const ProfileDir := "/etc/profile.d"

  function ProfileTitle(name: string, shell: Shell): string {
    "profile_d_" + name + "_" + Ext(shell)
  }

  function ProfilePath(name: string, shell: Shell): string {
    ProfileDir + "/" + name + "." + Ext(shell)
  }

  /** The profile.d script for one shell: root-owned, mode 0644. */
  function ProfileFile(name: string, shell: Shell, ensure: FileEnsure, content: Option<string>): Resource {
    File(ProfileTitle(name, shell), ProfilePath(name, shell), ensure, "root", "root", "0644", content)
  }

  /** The sh and csh scripts of one name have different titles. */
  lemma ShellTitlesDiffer(name: string)
    ensures ProfileTitle(name, Sh) != ProfileTitle(name, Csh)
  {
    assert |ProfileTitle(name, Sh)| != |ProfileTitle(name, Csh)|;
  }

  /** Distinct valid names or shells never share a path: the path determines
      the name and the shell. */
  lemma ProfilePathInjective(n1: string, s1: Shell, n2: string, s2: Shell)
    requires '.' !in n1 && '.' !in n2
    requires ProfilePath(n1, s1) == ProfilePath(n2, s2)
    ensures n1 == n2 && s1 == s2
  {
    var prefix := ProfileDir + "/";
    var rest1 := n1 + ['.'] + Ext(s1);
    var rest2 := n2 + ['.'] + Ext(s2);
    assert ProfilePath(n1, s1) == prefix + rest1;
    assert ProfilePath(n2, s2) == prefix + rest2;
    assert (prefix + rest1)[|prefix|..] == rest1;
    assert (prefix + rest2)[|prefix|..] == rest2;
    SeparatorSplits(n1, Ext(s1), n2, Ext(s2), '.');
    assert |Ext(Sh)| != |Ext(Csh)|;
  }
}

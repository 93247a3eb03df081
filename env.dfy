/** The `env` base class: validate profile_file_ensure, profile_file and the
    two script contents, then declare the profile.d scripts that have
    content; on Solaris also declare /etc/profile.d and the exec that makes
    /etc/profile source it. */
module Env {
  import opened Wrappers
  import opened Text
  import opened Catalog

  /** The parameters of class `env`. `profileFile` is None while unset (its
      default), which renders as the empty name. */
  datatype EnvParams = EnvParams(
    profileFile: Option<Value>,
    profileFileEnsure: Value,
    contentSh: Option<Value>,
    contentCsh: Option<Value>)

  function EnvDefaults(): EnvParams {
    EnvParams(None, Str("present"), None, None)
  }

  // ---------------------------------------------------------------------
  // The Solaris extras

  /** The line whose presence in /etc/profile means the loader is installed. */
  const GuardLine := "if [ -d /etc/profile.d ]; then"

  const LoaderHead := "\n#Puppet: Do not removed\n"
  const LoaderTail := "\n\tfor i in /etc/profile.d/*.sh; do\n\t\tif [ -r $i ]; then\n\t\t\t. $i\n\t\tfi\n\tdone\n\tunset i\nfi\n\n"

  /** What the exec's `echo` appends to /etc/profile: the loop that sources
      every sh script in /etc/profile.d, wrapped in the guard line, followed by the
      newline `echo` adds. */
  const LoaderSnippet := LoaderHead + GuardLine + LoaderTail

  /** The exec's command and guard, character for character. */
  const LoaderCommand := @"echo ""\n#Puppet: Do not removed\nif [ -d /etc/profile.d ]; then\n\tfor i in /etc/profile.d/*.sh; do\n\t\tif [ -r \$i ]; then\n\t\t\t. \$i\n\t\tfi\n\tdone\n\tunset i\nfi\n"" >> /etc/profile"
  const GuardCommand := @"grep ""if \[ \-d \/etc\/profile\.d \]; then"" /etc/profile"

  const ProfileDirResource := File("profile_d", ProfileDir, Directory, "root", "root", "0755", None)

  const EtcProfileExec := Exec("etc_profile", LoaderCommand, GuardCommand,
                               ["/usr/bin", "/usr/sbin"], ["File[profile_d]"])

  /** The resources only Solaris gets. */
  function SolarisExtras(os: OsFamily): (rs: seq<Resource>)
    ensures ProfileDirResource in rs <==> os == Solaris
    ensures EtcProfileExec in rs <==> os == Solaris
    ensures os != Solaris ==> !Declares(rs, "profile_d") && !Declares(rs, "etc_profile")
  {
    if os == Solaris then [ProfileDirResource, EtcProfileExec] else []
  }

  /** The exec is ordered after the directory it refers to, and that
      directory is declared beside it. */
  lemma ExecRequiresProfileDir(os: OsFamily)
    requires EtcProfileExec in SolarisExtras(os)
    ensures "File[profile_d]" in EtcProfileExec.require
    ensures ProfileDirResource in SolarisExtras(os) && ProfileDirResource.title == "profile_d"
  {
  }

  // ---------------------------------------------------------------------
  // The profile.d scripts

  /** `content_sh` / `content_csh`: unset, or a string. An empty string
      declares nothing, like an unset one. */
  function ValidateContent(param: string, v: Option<Value>): (r: Result<Option<string>, Error>)
    ensures r.Ok? <==> v.None? || v.value.Str?
    ensures r.Ok? && r.value.Some? ==> v == Some(Str(r.value.value)) && r.value.value != ""
    ensures r.Ok? && r.value.None? ==> v.None? || v.value == Str("")
    ensures r.Err? ==> r.error == NotAString(param, TypeName(v.value))
  {
    match v
    case None => Ok(None)
    case Some(Str(s)) => Ok(if s == "" then None else Some(s))
    case Some(other) => Err(NotAString(param, TypeName(other)))
  }

  /** The sh and csh scripts of `name`, each only when it has content. */
  function ProfileFiles(name: string, ensure: FileEnsure, sh: Option<string>, csh: Option<string>): seq<Resource> {
    (if sh.Some? then [ProfileFile(name, Sh, ensure, sh)] else [])
    + (if csh.Some? then [ProfileFile(name, Csh, ensure, csh)] else [])
  }

  /** Every parameter of `env` passes its check. */
  predicate EnvParamsValid(p: EnvParams) {
    (p.profileFileEnsure == Str("present") || p.profileFileEnsure == Str("absent"))
    && (p.profileFile.Some? ==> p.profileFile.value.Str? && ValidProfileName(p.profileFile.value.s))
    && (p.contentSh.Some? ==> p.contentSh.value.Str?)
    && (p.contentCsh.Some? ==> p.contentCsh.value.Str?)
  }

  /** The catalog of class `env` on a host of family `os`. Any family is
      accepted; only Solaris gets the extras. */
  function EnvCatalog(os: OsFamily, p: EnvParams): (r: Result<seq<Resource>, Error>)
    ensures r.Ok? <==> EnvParamsValid(p)
    ensures r.Ok? ==> (ProfileDirResource in r.value <==> os == Solaris)
    ensures r.Ok? ==> (EtcProfileExec in r.value <==> os == Solaris)
  {
    var ensure :- ValidateEnsure("env::profile_file_ensure", p.profileFileEnsure);
    var name :- if p.profileFile.None? then Ok("") else ValidateProfileName("env::profile_file", p.profileFile.value);
    var sh :- ValidateContent("env::content_sh", p.contentSh);
    var csh :- ValidateContent("env::content_csh", p.contentCsh);
    Ok(SolarisExtras(os) + ProfileFiles(name, ensure, sh, csh))
  }

  /** The name the scripts are declared under: `profile_file`, or empty
      while it is unset. */
  function ScriptName(p: EnvParams): string {
    if p.profileFile.Some? && p.profileFile.value.Str? then p.profileFile.value.s else ""
  }

  /** The content parameter of one shell. */
  function ContentOf(p: EnvParams, shell: Shell): Option<Value> {
    if shell == Sh then p.contentSh else p.contentCsh
  }

  /** The profile.d titles never clash with the Solaris extras. */
  lemma ScriptNotExtra(os: OsFamily, name: string, shell: Shell)
    ensures !Declares(SolarisExtras(os), ProfileTitle(name, shell))
  {
    assert |ProfileTitle(name, shell)| >= 13;
  }

  /** For every valid set of parameters, the script of each shell is
      declared exactly when its content is a non-empty string, and the
      script declared is the profile.d file of the configured name and
      ensure, root:root 0644, carrying that content verbatim. */
  lemma EnvScripts(os: OsFamily, p: EnvParams, shell: Shell)
    requires EnvParamsValid(p)
    ensures var r := EnvCatalog(os, p);
            var name := ScriptName(p);
            var c := ContentOf(p, shell);
            r.Ok?
            && (Declares(r.value, ProfileTitle(name, shell)) <==> c.Some? && c.value != Str(""))
            && forall f :: f in r.value && f.title == ProfileTitle(name, shell) ==>
                 c.Some? && c.value.Str?
                 && f == File(ProfileTitle(name, shell), ProfilePath(name, shell),
                              if p.profileFileEnsure == Str("absent") then Absent else Present,
                              "root", "root", "0644", Some(c.value.s))
  {
    var r := EnvCatalog(os, p);
    var name := ScriptName(p);
    var ensure := if p.profileFileEnsure == Str("absent") then Absent else Present;
    var sh := ValidateContent("env::content_sh", p.contentSh).value;
    var csh := ValidateContent("env::content_csh", p.contentCsh).value;
    var files := ProfileFiles(name, ensure, sh, csh);
    assert r.value == SolarisExtras(os) + files;
    ScriptNotExtra(os, name, shell);
    ProfileFilesOf(name, ensure, sh, csh, shell);
    forall f | f in r.value && f.title == ProfileTitle(name, shell)
      ensures f in files
    {
    }
  }

  /** Within the scripts of one name, the script of `shell` is there exactly
      when that shell has content, and is the file carrying it. */
  lemma ProfileFilesOf(name: string, ensure: FileEnsure, sh: Option<string>, csh: Option<string>, shell: Shell)
    ensures var c := if shell == Sh then sh else csh;
            var files := ProfileFiles(name, ensure, sh, csh);
            (Declares(files, ProfileTitle(name, shell)) <==> c.Some?)
            && forall f :: f in files && f.title == ProfileTitle(name, shell) ==> f == ProfileFile(name, shell, ensure, c)
  {
    ShellTitlesDiffer(name);
  }

  /** With default parameters no profile.d script is declared; with any
      valid name and ensure, neither is one while no content is given. */
  lemma EnvNoContentNoScripts(os: OsFamily, name: Option<string>, ensure: string)
    requires ensure == "present" || ensure == "absent"
    requires name.Some? ==> ValidProfileName(name.value)
    ensures var p := EnvParams(if name.Some? then Some(Str(name.value)) else None, Str(ensure), None, None);
            EnvCatalog(os, p) == Ok(SolarisExtras(os))
  {
    var n := if name.Some? then name.value else "";
    var e := if ensure == "present" then Present else Absent;
    assert ProfileFiles(n, e, None, None) == [];
    assert SolarisExtras(os) + [] == SolarisExtras(os);
  }

  /** The default catalog: the Solaris extras and nothing else; in particular
      neither `profile_d__sh` nor `profile_d__csh`. */
  lemma EnvDefaultCatalog(os: OsFamily)
    ensures EnvCatalog(os, EnvDefaults()) == Ok(SolarisExtras(os))
    ensures !Declares(SolarisExtras(os), ProfileTitle("", Sh))
    ensures !Declares(SolarisExtras(os), ProfileTitle("", Csh))
  {
    EnvNoContentNoScripts(os, None, "present");
    assert ProfileTitle("", Sh) != "profile_d" && ProfileTitle("", Sh) != "etc_profile";
    assert ProfileTitle("", Csh) != "profile_d" && ProfileTitle("", Csh) != "etc_profile";
  }

  /** Content for one shell declares exactly that shell's script, present,
      root:root 0644, carrying the content verbatim, and not the other. */
  lemma EnvOneScript(os: OsFamily, name: string, shell: Shell, content: string)
    requires ValidProfileName(name) && content != ""
    ensures var c := Some(Str(content));
            var p := EnvParams(Some(Str(name)), Str("present"),
                               if shell == Sh then c else None, if shell == Csh then c else None);
            EnvCatalog(os, p) == Ok(SolarisExtras(os) + [File(ProfileTitle(name, shell), ProfileDir + "/" + name + "." + Ext(shell),
                                                         Present, "root", "root", "0644", Some(content))])
  {
    var file := ProfileFile(name, shell, Present, Some(content));
    assert ProfilePath(name, shell) == ProfileDir + "/" + name + "." + Ext(shell);
    if shell == Sh {
      assert ProfileFiles(name, Present, Some(content), None) == [file];
    } else {
      assert ProfileFiles(name, Present, None, Some(content)) == [file];
    }
  }

  /** An array given as script content is refused as not a string. */
  lemma EnvArrayContentRejected(os: OsFamily, name: string, shell: Shell, lines: seq<Value>)
    requires ValidProfileName(name)
    ensures var c := Some(Arr(lines));
            var param := if shell == Sh then "env::content_sh" else "env::content_csh";
            var p := EnvParams(Some(Str(name)), Str("present"),
                               if shell == Sh then c else None, if shell == Csh then c else None);
            EnvCatalog(os, p) == Err(NotAString(param, "Array"))
  {
  }

  /** profile_file_ensure other than present/absent (e.g. directory) is
      refused before anything else is looked at. */
  lemma EnvInvalidEnsure(os: OsFamily, p: EnvParams)
    requires p.profileFileEnsure != Str("present") && p.profileFileEnsure != Str("absent")
    ensures EnvCatalog(os, p) == Err(InvalidEnsure("env::profile_file_ensure", p.profileFileEnsure))
  {
  }

  /** A profile_file with a dot (e.g. test.sh) is refused. */
  lemma EnvDottedName(os: OsFamily, name: string, ensure: string)
    requires ensure == "present" || ensure == "absent"
    requires '.' in name
    ensures EnvCatalog(os, EnvParams(Some(Str(name)), Str(ensure), None, None))
            == Err(InvalidProfileFile("env::profile_file", Str(name)))
  {
  }

  // ---------------------------------------------------------------------
  // The etc_profile exec, run against the contents of /etc/profile

  /** /etc/profile after one run of the exec: unchanged when the guard line
      is already there (`unless` succeeds), else with the snippet appended. */
  function AfterLoaderExec(profile: string): string {
    if Contains(profile, GuardLine) then profile else profile + LoaderSnippet
  }

  /** After a run the guard line is present, and what was there before is
      kept as a prefix. */
  lemma LoaderExecInstalls(profile: string)
    ensures Contains(AfterLoaderExec(profile), GuardLine)
    ensures profile <= AfterLoaderExec(profile)
  {
    if !Contains(profile, GuardLine) {
      ContainsMiddle(LoaderHead, GuardLine, LoaderTail);
      ContainsAfter(profile, LoaderSnippet, GuardLine);
      assert (profile + LoaderSnippet)[..|profile|] == profile;
    }
  }

  /** Running the exec twice leaves /etc/profile as running it once: the
      appended snippet itself carries the guard line. */
  lemma LoaderExecIdempotent(profile: string)
    ensures AfterLoaderExec(AfterLoaderExec(profile)) == AfterLoaderExec(profile)
  {
    LoaderExecInstalls(profile);
  }

  /** The contents of /etc/profile on a Solaris host. */
  class EtcProfile {
    var contents: string

    constructor (initial: string)
      ensures contents == initial
    {
      contents := initial;
    }

    /** One run of the `etc_profile` exec: check with the guard, then append.
        Reports whether it wrote. */
    method RunLoaderExec() returns (wrote: bool)
      modifies this
      ensures wrote <==> !Contains(old(contents), GuardLine)
      ensures contents == AfterLoaderExec(old(contents))
    {
      var installed := Contains(contents, GuardLine);
      if !installed {
        contents := contents + LoaderSnippet;
      }
      wrote := !installed;
    }
  }

  /** Two convergence runs against a profile that starts as `initial`: the
      second never writes, and the result is that of a single run. */
  method ConvergeTwice(initial: string) returns (firstWrote: bool, secondWrote: bool, final: string)
    ensures firstWrote <==> !Contains(initial, GuardLine)
    ensures !secondWrote
    ensures final == AfterLoaderExec(initial)
    ensures Contains(final, GuardLine)
  {
    var profile := new EtcProfile(initial);
    firstWrote := profile.RunLoaderExec();
    LoaderExecInstalls(initial);
    secondWrote := profile.RunLoaderExec();
    LoaderExecIdempotent(initial);
    final := profile.contents;
  }
}

# puppet-module-env, modelled in Dafny

The module declares the profile.d shell scripts that set up a host's
environment, on RedHat, Suse, Debian and Solaris hosts. It has two classes:

- `env` validates `profile_file_ensure` (present or absent), `profile_file`
  (letters, digits, `_` and `-`) and the two script contents (`content_sh`,
  `content_csh`, which must be strings). It declares
  `/etc/profile.d/<profile_file>.sh` and `.csh`, but only for the contents
  that are given. On Solaris it also declares the `/etc/profile.d`
  directory and the `etc_profile` exec. That exec appends a loader snippet
  to `/etc/profile` unless `/etc/profile` already contains the snippet's
  guard line.
- `env::proxy` refuses any other OS family. It requires `url`, which must
  be an FQDN. It validates `port` (1..65535, an integer or a numeric
  string), `exceptions` (an array), `enable_sh` and `enable_csh` (through
  str2bool), `profile_file_ensure`, `profile_file` and `enable_hiera_array`
  (a boolean or a string). It then declares `proxy.sh` and `proxy.csh`.
  These scripts set `http_proxy`, `https_proxy` and `ftp_proxy` to
  `http://<url>:<port>`, and `no_proxy` to the comma-joined exceptions.
  Solaris never gets the csh script.

The behaviour modelled is the behaviour the module's rspec files pin down.
Each class is a pure function from the OS family and the parameters to
`Result<seq<Resource>, Error>`: a list of catalog resources, or the first
validation error. A resource is a `File` (title, path, ensure, owner, group,
mode, optional content) or an `Exec` (command, `unless` guard, search path,
`require` references).

The only stateful piece is the Solaris `etc_profile` exec. It is modelled as
the class `Env.EtcProfile`, which holds the contents of `/etc/profile`. Its
method `RunLoaderExec` checks for the guard line and appends the snippet
only when the line is missing. The lemmas prove that a second run changes
nothing.

Files:

- `wrappers.dfy`: `Option` and `Result`.
- `text.dfy`: substring search, split and join on a separator (proved
  inverse), and decimal numerals (proved to read back).
- `catalog.dfy`: parameter values, OS families, resources, errors, and the
  `profile_file` and `profile_file_ensure` checks that both classes use.
- `env.dfy`: class `env` and the `/etc/profile` exec.
- `proxy.dfy`: class `env::proxy`.

## Model

| member | source | states |
|---|---|---|
| `Catalog.Classify` | spec/classes/proxy_spec.rb:3-16 | the four families are recognised exactly; any other fact is unsupported and keeps its name |
| `Catalog.ValidateEnsure` | spec/classes/init_spec.rb:64-92 | profile_file_ensure is accepted exactly when it is the string present or absent; anything else is an InvalidEnsure error naming the parameter and value |
| `Catalog.ValidateProfileName` | spec/classes/init_spec.rb:95-113 | profile_file is accepted exactly when it is a non-empty string of letters, digits, `_` and `-`; an accepted name holds no dot and no slash |
| `Catalog.DottedNameRejected` | spec/classes/init_spec.rb:104-113 | any name containing a dot (test.sh) is refused |
| `Catalog.ProfilePathInjective` | spec/classes/init_spec.rb:126-183 | `/etc/profile.d/<name>.<sh or csh>` determines both the name and the shell, so no two scripts share a path |
| `Text.SplitJoin` | spec/classes/proxy_spec.rb:352-358 | a comma join keeps every exception in input order: splitting it gives the list back |
| `Env.SolarisExtras` | spec/classes/init_spec.rb:27-56 | the profile_d directory and the etc_profile exec are declared on Solaris and on no other family |
| `Env.ExecRequiresProfileDir` | spec/classes/init_spec.rb:52 | the exec requires `File[profile_d]`, and that directory is declared beside it |
| `Env.ValidateContent` | spec/classes/init_spec.rb:142-199 | script content must be unset or a string; an array fails as not a string, reporting its type; only non-empty content declares a script |
| `Env.EnvCatalog` | spec/classes/init_spec.rb:18-60 | the catalog succeeds exactly when every parameter passes its check; it holds the directory and the exec exactly on Solaris |
| `Env.EnvScripts` | spec/classes/init_spec.rb:64-199 | for every valid set of parameters, the script of each shell is declared exactly when its content is a non-empty string; the script declared is `/etc/profile.d/<name>.<ext>` with the configured ensure, root:root, 0644, carrying that content verbatim |
| `Env.EnvDefaultCatalog` | spec/classes/init_spec.rb:58-59 | with default parameters the catalog holds only the Solaris extras; there is no `profile_d__sh` and no `profile_d__csh` |
| `Env.EnvNoContentNoScripts` | spec/classes/init_spec.rb:64-102 | with no content, no profile.d script is declared, whatever the valid name and ensure |
| `Env.EnvOneScript` | spec/classes/init_spec.rb:116-183 | content for one shell declares exactly that shell's script: `/etc/profile.d/<name>.<ext>`, present, root:root, 0644, carrying the content unchanged; the other shell gets no script |
| `Env.EnvArrayContentRejected` | spec/classes/init_spec.rb:142-199 | an array given as content_sh or content_csh fails with NotAString(..., "Array") |
| `Env.EnvInvalidEnsure` | spec/classes/init_spec.rb:78-92 | a profile_file_ensure other than present or absent (directory) fails |
| `Env.EnvDottedName` | spec/classes/init_spec.rb:104-113 | a profile_file with a dot fails the name check |
| `Env.LoaderExecInstalls` | spec/classes/init_spec.rb:44-46 | after one run of the exec, /etc/profile contains the guard line, and its earlier contents are kept as a prefix |
| `Env.LoaderExecIdempotent` | spec/classes/init_spec.rb:44-46 | running the guarded append twice leaves /etc/profile exactly as running it once |
| `Env.EtcProfile.RunLoaderExec` | spec/classes/init_spec.rb:40-50 | the exec writes exactly when the guard line is absent; the new contents are the old contents, with the snippet appended if it wrote |
| `Env.ConvergeTwice` | spec/classes/init_spec.rb:44-46 | on two runs against the same file, the second run never writes, and the result equals a single run |
| `Proxy.FqdnFromLabels` | spec/classes/proxy_spec.rb:269-276 | joining well-formed labels that end in a top-level label of two or more letters, at most 255 characters in all, gives an FQDN whose labels are the ones joined |
| `Proxy.FqdnOfLabels` | spec/classes/proxy_spec.rb:269-290 | a dot-free list of labels joins to an FQDN exactly when there are at least two, all but the last are well-formed labels, the last is at least two letters and nothing else, and the whole is at most 255 characters |
| `Proxy.ExampleUrlIsFqdn` | spec/classes/proxy_spec.rb:272 | proxy.example.com is accepted |
| `Proxy.TldWithDigitsRejected` | spec/classes/proxy_spec.rb:175-184 | proxy.example.com10 is refused, because its top-level label has digits |
| `Proxy.SingleLabelRejected` | spec/classes/proxy_spec.rb:278 | a name without a dot ('true', '-1') is refused |
| `Proxy.LongTldRejected` | spec/classes/proxy_spec.rb:278-289 | the name with a 67-character top-level label is refused |
| `Proxy.ValidateUrl` | spec/classes/proxy_spec.rb:39-51 | an unset url fails as mandatory; a set url is accepted exactly when it is a string naming an FQDN; otherwise it fails as an invalid FQDN |
| `Proxy.ValidatePort` | spec/classes/proxy_spec.rb:292-342 | the port is accepted exactly when it is unset (8080) or denotes 1..65535 as an integer or a digit string; booleans, floats and arrays are refused; the accepted port is written as digits denoting that number, a string port verbatim |
| `Proxy.PortFormsAgree` | spec/classes/proxy_spec.rb:293-305 | an integer port and its numeral are accepted alike and give the same text |
| `Proxy.RejectedPorts` | spec/classes/proxy_spec.rb:308-342 | 0, 65536, '90900', true and 80.2 are refused as invalid ports |
| `Proxy.ValidateExceptions` | spec/classes/proxy_spec.rb:345-376 | exceptions are accepted exactly when unset (none) or an array, element by element in order; a bare string fails as not an array |
| `Proxy.Str2Bool` | spec/classes/proxy_spec.rb:133-173 | a boolean passes through; a string is accepted exactly when it is a true or false word read without regard to case, or undef or undefined in lower case; anything else is an unknown boolean |
| `Proxy.Str2BoolRoundTrip` | spec/classes/proxy_spec.rb:133-153 | 'true' and true read as true; 'false' and false read as false |
| `Proxy.UndefCaseSensitive` | spec/classes/proxy_spec.rb:133-173 | undef reads as false, but UNDEF is an unknown boolean: only the true and false words are read without regard to case |
| `Proxy.RejectedBooleans` | spec/classes/proxy_spec.rb:156-173 | 'test', 'yessss' and 'nooooo' are unknown booleans |
| `Proxy.Validate` | spec/classes/proxy_spec.rb:39-376 | validation succeeds exactly when every parameter passes its own rule; the configuration it yields holds the url and profile name as given, and the port text, exception list, both enable flags and ensure that the parameter's own rule (`ValidatePort`, `ValidateExceptions`, `Str2Bool`, `ValidateEnsure`) gives for it; the url is an FQDN and the port in 1..65535 |
| `Proxy.ShContentAssigns` | spec/classes/proxy_spec.rb:269-358 | the sh script assigns `http_proxy="http://url:port"`; with exceptions, it assigns `no_proxy="<comma-joined list>"` and exports it |
| `Proxy.CshContentAssigns` | spec/classes/proxy_spec.rb:269-358 | the csh script holds `set proxy="http://url:port"`; with exceptions, it holds `setenv no_proxy <comma-joined list>` |
| `Proxy.ProxyFilesShape` | spec/classes/proxy_spec.rb:53-131 | every proxy script is a root:root 0644 profile.d file of the configured name and ensure; Solaris never gets the csh script; when present, exactly the enabled shells get a script, with the synthesised content; when absent, both scripts (only the sh script on Solaris) are declared without content |
| `Proxy.ProxyCatalog` | spec/classes/proxy_spec.rb:18-37 | an unsupported family fails, naming the family; on a supported one the catalog succeeds exactly when the parameters are valid; it includes the default catalog of class env; on Solaris it has no csh script |
| `Proxy.ProxyUnsupportedFamily` | spec/classes/proxy_spec.rb:28-37 | an osfamily fact outside the four (CoreOS) fails with UnsupportedPlatform naming the fact |
| `Proxy.ProxyUrlMandatory` | spec/classes/proxy_spec.rb:39-51 | without url, every supported family fails with the mandatory-url error |
| `Proxy.ProxyUrlRejected` | spec/classes/proxy_spec.rb:278-290 | a url that is not an FQDN fails with InvalidFqdn |
| `Proxy.ProxyDefaultScripts` | spec/classes/proxy_spec.rb:97-131 | with only url set, each family gets `/etc/profile.d/proxy.sh`, present, root:root, 0644; each family except Solaris also gets `/etc/profile.d/proxy.csh` with the same attributes |
| `Proxy.DefaultScriptsUsePort8080` | spec/classes/proxy_spec.rb:269-276 | by default the sh script holds `http_proxy="http://url:8080"` and the csh script `set proxy="http://url:8080"` |
| `Proxy.ProxyEnableFlags` | spec/classes/proxy_spec.rb:133-154 | enable_sh and enable_csh set to 'true' declare both scripts; set to false, they declare neither |
| `Proxy.ProxyUnknownBoolean` | spec/classes/proxy_spec.rb:156-173 | an enable flag that str2bool does not know fails as an unknown boolean |
| `Proxy.ProxyAbsent` | spec/classes/proxy_spec.rb:67-78 | with profile_file_ensure absent, both scripts are still declared, with ensure absent |
| `Proxy.ProxyInvalidEnsure` | spec/classes/proxy_spec.rb:80-94 | a profile_file_ensure other than present or absent fails |
| `Proxy.ProxyProfileName` | spec/classes/proxy_spec.rb:187-220 | profile_file sets both titles and both paths: `profile_d_<name>_sh` at `/etc/profile.d/<name>.sh`, and the same for csh |
| `Proxy.ProxyDottedName` | spec/classes/proxy_spec.rb:222-236 | a profile_file with a dot (proxy_test.sh) fails |
| `Proxy.ProxyPortInScripts` | spec/classes/proxy_spec.rb:292-306 | an accepted port, integer or numeric string, appears verbatim after the url in both scripts |
| `Proxy.ProxyPortRejected` | spec/classes/proxy_spec.rb:308-342 | a port that does not denote 1..65535 as an integer or a digit string fails with InvalidPort |
| `Proxy.ProxyExceptionsInScripts` | spec/classes/proxy_spec.rb:345-359 | an array of exceptions appears comma-joined, in order, as `no_proxy="..."` (exported) in the sh script and as `setenv no_proxy ...` in the csh script |
| `Proxy.ExampleExceptionsJoined` | spec/classes/proxy_spec.rb:352-358 | the test's three exceptions join to `localhost,127.0.0.1,.example.com` |
| `Proxy.ProxyExceptionsString` | spec/classes/proxy_spec.rb:361-376 | a bare string as exceptions fails as not an array |
| `Proxy.ProxyHieraArray` | spec/classes/proxy_spec.rb:239-267 | enable_hiera_array true is accepted; the integer 10 fails as not a boolean or a string |

## Left out

- The Puppet compiler, catalog dependency resolution and the rspec harness
  are not modelled. The `require` edge of the exec is kept as data.
- `validate_fqdn`, `validate_port` and `str2bool` are stdlib functions whose
  source is not part of this model. Each is replaced by a stated rule that
  agrees with every example the tests give:
  - `Proxy.IsFqdn`: at most 255 characters; at least two labels; each label
    1 to 63 letters, digits or hyphens, not starting or ending with a
    hyphen; the last label made of two or more letters and nothing else.
  - `Proxy.ValidatePort`: an integer, or a digit string, in 1..65535.
  - `Proxy.Str2Bool`: 1, t, y, true and yes read as true, and the empty
    string, 0, f, n, false and no read as false, all without regard to ASCII
    case; undef and undefined read as false in lower case only.
  Only the test examples are proved about the real functions' behaviour.
- The exec's shell is not executed:
  - The model does not interpret `echo`'s escape sequences. `LoaderSnippet`
    is the text that command writes.
  - The model does not interpret the `grep` regular expression.
    `GuardLine` is the literal line that the expression matches.
  - The file is modelled as a string, not as a file on disk.
- The Hiera lookup and array merging behind `enable_hiera_array` are not
  modelled. Only the type check is.
- Of the script text, only the lines the tests assert are fixed. The other
  lines are stand-ins: the https_proxy and ftp_proxy lines, the csh setenv
  lines and the export list. Uppercase variable names are not modelled.
- The exact wording of error messages is not modelled. Errors are tagged
  variants that carry the parameter and value.
- The tests do not fix the order in which the parameters are checked. The
  model checks `env::proxy` in this order: OS family, url, port,
  exceptions, enable flags, ensure, profile_file, enable_hiera_array. It
  checks `env` in this order: ensure, profile_file, contents.
- The tests do not cover every combination. The model makes these choices:
  - `profile_file_ensure` absent in `env::proxy` declares both scripts
    (only the sh script on Solaris) without content, whatever the enable
    flags.
  - Empty `exceptions` write no `no_proxy` line.
  - Empty `env` content declares no script.
  - `env` declares the csh script on Solaris too when `content_csh` is
    given; only `env::proxy` leaves csh out on Solaris.
  - `env` with `profile_file_ensure` absent and no content declares no
    script: nothing is removed unless a content parameter names it.
- `env`'s `profile_file` is optional. The default-parameter test names
  the titles `profile_d__sh` and `profile_d__csh` in expectations that they
  are not declared, which implies an empty default name. The name pattern (one or more characters) would refuse an empty
  name. So the check is applied only when the parameter is set.
- Non-string elements of `exceptions` are rendered as Ruby's `join` would
  render them. The tests pass strings only.
- `Proxy.ShContentAssigns` and `Proxy.CshContentAssigns` state which lines
  the scripts contain. They do not state that no `no_proxy` line appears
  when there are no exceptions, because the tests assert only presence.

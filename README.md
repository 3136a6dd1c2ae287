# Version-provenance inference, modelled in Dafny

This project models Prefect's version-provenance metadata, which records where a running
process's code came from. It covers the data model and the inference logic of
`src/prefect/version_info_types.py`.

- **Records** (`version_info.dfy`, module `VersionInfoTypes`). There are four record shapes:
  simple, GitHub build, git checkout and Docker image. Each is tagged by a literal `type`
  value (`VersionType`). A record of a non-simple shape can be constructed only if it has
  every field declared `str`. That includes `image_name` for the Docker shape, which no getter
  ever sets.
- **The `VersionInfo` wrapper** (same module), as its authors evidently intended it. It picks
  the shape from the `type` value, constructs it, and runs `validate_type_requirements`
  once. A GitHub record needs a non-empty branch. A Docker record needs a non-empty image,
  checked before a non-empty registry. Reading an attribute of the wrapper returns the
  active variant's attribute. As written, lines 54 and 58 read `self.__root__`, which does
  not exist on this wrapper, so both end in a RecursionError. The model keeps that behaviour
  beside the intended one; see "## Findings".
- **Getters and orchestrator** (`inference.dfy`, module `VersionInference`):
  - The GitHub getter takes each field from its argument, falling back to the `GITHUB_*`
    environment variables.
  - The git getter runs `git` commands for the arguments it was not given. It derives the
    repository name from `remote.origin.url`.
  - The Docker getter passes its arguments straight through.
  - `get_inferred_version_info` runs the one getter named by `version_type`. With no type
    given, it tries Docker, then GitHub, then git, skipping getters that raised a ValueError.
- **Python string behaviour** (`py_strings.dfy`, module `PyStrings`). This gives the exact Python
  meaning of the few operations the code uses:
  - truthiness of an optional string
  - `or`
  - `str(None)`
  - `str.strip()`, with Python's `isspace` character set
  - `str.rstrip(chars)`, which strips a character *set*
  - `str.split`
  - POSIX `os.path.basename`
- **Support** (`wrappers.dfy`): `Option` and `Result`.

Python's `None` is `Option.None`, so an empty string and `None` are different values.
Raising an exception is a `Failure` carrying an `Error`. `IsValueError` says which errors
are ValueErrors, including the record framework's validation errors. Only those are skipped
by the fallback loop.

The process environment is a `map<string, string>`. The subprocess runner is a function
parameter, `Runner = Command -> CmdResult`. For each of the three git invocations it gives
either the decoded stdout or the exception raised. An exception is either an `Exception`,
which the git getter wraps, or a cancellation, which escapes that `except Exception`.

The two step-by-step procedures are methods, each proved equal to a function that states the
outcome:
- `GetGitVersionInfo` models the Python `get_git_version_info`, which reassigns its
  arguments in turn inside one `try` block. The method runs that as stages: `RunIfFalsy`
  for the version and the branch, then `FinishGitVersionInfo` for the repository, the url
  and the construction. An error ends it at the stage that raised. It also returns the list
  of commands it ran.
- `RunGetters` is the `for getter in getters` loop, with its early return, its `continue`
  and its re-raise when there is only one getter. It returns the getters it called.

The code's own quirks are modelled as written:
- the character-set `rstrip(".git")`, so `x/prefect.git` yields `prefec`
- the url `"None/<repo>"` when `GITHUB_SERVER_URL` is unset
- a Docker getter that can never succeed
- a final fall-through that builds a simple record, drops it and returns `None`. It is
  `Success(None)` here.

Where the docstring of `get_inferred_version_info` (version_info_types.py:180-192) promises
more than the code does, the model follows the code:
- The docstring says the function returns a `VersionInfo` and raises a ValueError "if unable
  to infer version info from any source". For a falsy `version_type` the code runs all
  default getters and returns `None` when each of them raised a ValueError. It does not
  return a simple record or raise an aggregate error.
- The getters return raw variant records, never a `VersionInfo`.
- The Docker getter fails at construction, because `image_name` is missing. The wrapper's
  image and registry checks are never reached.
- Since the getters return raw variants, their records never pass through the `VersionInfo`
  validator. `InferredRecordsPassWrapper` proves that the intended wrapper would accept them
  unchanged anyway. The wrapper as written rejects them, like every other input (see "## Findings").

## Model

| member | source | states |
|---|---|---|
| VersionInfoTypes.FromTypeValue | src/prefect/version_info_types.py:171-176 | a tag selects a variant exactly when it is one of the four enumeration values, and then that variant's value is the tag |
| VersionInfoTypes.TypeValue | src/prefect/version_info_types.py:171-176 | defines the string value of each `VersionType` member; inverted by FromTypeValue (no contract of its own) |
| VersionInfoTypes.AbsentRequired | src/prefect/version_info_types.py:11-41 | the missing fields are exactly the shape's required `str` fields without a value; none are missing exactly when the record has its shape |
| VersionInfoTypes.DockerAbsent | src/prefect/version_info_types.py:34-41 | a Docker candidate lacks exactly the `None` ones of version, branch, url, image_name, registry, image, in that order |
| VersionInfoTypes.GitAbsent | src/prefect/version_info_types.py:26-31 | a git candidate lacks exactly the `None` ones of version, branch, url, repository, in that order |
| VersionInfoTypes.Construct | src/prefect/version_info_types.py:11-41 | construction succeeds exactly for a record with all required fields and returns it unchanged; otherwise it raises a ValueError listing precisely the missing required fields of that shape |
| VersionInfoTypes.FromFields | src/prefect/version_info_types.py:44-51 | the candidate built for a shape has that shape and reads every declared field from the input |
| VersionInfoTypes.ToFields | src/prefect/version_info_types.py:44-51 | a record's input carries its tag and the value of every declared field that has one |
| VersionInfoTypes.ParseVersionInfo | src/prefect/version_info_types.py:44-51 | no tag and an unknown tag are errors; for a known tag, parsing succeeds exactly when the input has every required field of that shape, and otherwise fails for that shape naming exactly the absent required fields; a parsed record has the tag's shape and the input's field values |
| VersionInfoTypes.ParseToFields | src/prefect/version_info_types.py:44-51 | round trip: the union accepts a record's input exactly when the record has its shape, and then yields the same record |
| VersionInfoTypes.ValidateTypeRequirements | src/prefect/version_info_types.py:56-69 | accepts exactly the records meeting the requirements and returns them unchanged; an empty GitHub branch, an empty Docker image, and (with an image) an empty registry each raise their own ValueError, image before registry |
| VersionInfoTypes.NewVersionInfo | src/prefect/version_info_types.py:44-69 | the wrapper succeeds exactly when the union parses and the parsed record meets the requirements, and then yields the parsed record; a parse error is raised unchanged, and otherwise a rejection is BranchRequired, ImageRequired or RegistryRequired |
| VersionInfoTypes.WrapperAccepts | src/prefect/version_info_types.py:44-69 | the wrapper accepts a record's input exactly when the record has its shape and meets its requirements, and yields that record |
| VersionInfoTypes.WrapperValidatesRecord | src/prefect/version_info_types.py:56-69 | a complete record's input is rejected by the wrapper exactly as the validator rejects the record: empty GitHub branch, then empty Docker image, then empty Docker registry |
| VersionInfoTypes.Attribute | src/prefect/version_info_types.py:53-54 | of the names modelled, `type` and the fields the active variant declares yield their values, and any other name is an AttributeError, which is not a ValueError |
| VersionInfoTypes.PassThroughRoundTrip | src/prefect/version_info_types.py:53-54 | reading `type` and each declared field through an accepted wrapper gives back what the input supplied |
| VersionInfoTypes.RootAsWritten | src/prefect/version_info_types.py:58 | `self.__root__` never yields the variant: it fails with an error that is not a ValueError |
| VersionInfoTypes.AsWrittenWrapperRejectsEverything | src/prefect/version_info_types.py:53-58 | as written, no input yields a wrapper (every parsed input ends in the recursion error), and reading any modelled attribute (`type` or a field) through the pass-through ends in it too |
| VersionInfoTypes.RootAliasCounterexample | src/prefect/version_info_types.py:44-69 | a complete GitHub record that the intended wrapper accepts and the written one rejects |
| VersionInfoTypes.IsValueError | src/prefect/version_info_types.py:144-147 | defines which modelled errors are ValueErrors: everything except an AttributeError, the RecursionError and a cancellation (no contract of its own) |
| VersionInfoTypes.ValidateTypeRequirementsAsWritten | src/prefect/version_info_types.py:56-69 | defines the validator as written: it starts with `root = self.__root__`, so it fails before any check; stated by AsWrittenWrapperRejectsEverything (no contract of its own) |
| VersionInfoTypes.NewVersionInfoAsWritten | src/prefect/version_info_types.py:44-69 | defines `VersionInfo(...)` as written: parse, then the as-written validator; stated by AsWrittenWrapperRejectsEverything (no contract of its own) |
| VersionInfoTypes.AttributeAsWritten | src/prefect/version_info_types.py:53-54 | defines the pass-through as written, `getattr(self.__root__, name)`; stated by AsWrittenWrapperRejectsEverything (no contract of its own) |
| PyStrings.Truthy | src/prefect/version_info_types.py:97-101 | defines `if x:` on an optional string: `None` and `""` are falsy (no contract of its own) |
| PyStrings.Or | src/prefect/version_info_types.py:92-95 | defines `a or b`: `a` when truthy, else `b`; its consequences are stated by GithubPrecedence and GithubEmptyArgumentIsAbsent (no contract of its own) |
| PyStrings.RStrip | src/prefect/version_info_types.py:137 | the result is a prefix of the input, every removed character is in the set, and the result does not end with one |
| PyStrings.LStrip | src/prefect/version_info_types.py:126 | the result is a suffix of the input, every removed character is in the set, and the result does not start with one |
| PyStrings.Strip | src/prefect/version_info_types.py:126 | `strip()` yields a slice of the input with only whitespace outside it, and neither starts nor ends with whitespace |
| PyStrings.Split | src/prefect/version_info_types.py:137 | a split always has at least one piece |
| PyStrings.SplitJoin | src/prefect/version_info_types.py:137 | joining the pieces of a split with the separator restores the input |
| PyStrings.SplitPiecesLackSeparator | src/prefect/version_info_types.py:137 | no piece of a split contains the separator |
| PyStrings.SplitHasSecondPiece | src/prefect/version_info_types.py:137 | `split(":")[1]` exists exactly when ':' occurs in the input |
| PyStrings.SplitAfterPrefix | src/prefect/version_info_types.py:137 | a split of separator-free text, a separator and the rest is that text followed by the rest's split |
| PyStrings.Basename | src/prefect/version_info_types.py:137 | the base name has no '/', is a suffix of the path, and is preceded by '/' unless it is the whole path |
| VersionInference.GithubDefaultUrl | src/prefect/version_info_types.py:95 | defines the fallback url `f"{os.getenv('GITHUB_SERVER_URL')}/{repository}"`; stated by GithubPrecedence and GithubUrlWithoutServer (no contract of its own) |
| VersionInference.Argv | src/prefect/version_info_types.py:122-143 | defines the argument vector of each of the three git invocations (no contract of its own) |
| VersionInference.Getenv | src/prefect/version_info_types.py:92-94 | defines `os.getenv(name)`: the variable's value, or `None` when it is unset (no contract of its own) |
| VersionInference.GetGithubVersionInfo | src/prefect/version_info_types.py:72-112 | succeeds exactly when version, branch and repository each resolve truthy from argument or environment; otherwise the first unresolved one, in the order version, branch, repository, is reported with its variable; a result is a valid GitHub record meeting its requirements |
| VersionInference.GithubPrecedence | src/prefect/version_info_types.py:92-95 | a truthy argument wins over its environment variable; the url is the explicit one or server url + "/" + resolved repository |
| VersionInference.GithubEmptyArgumentIsAbsent | src/prefect/version_info_types.py:92-95 | an empty-string argument gives the same outcome as an omitted one, for each of the four arguments |
| VersionInference.GithubExplicitIgnoresEnvironment | src/prefect/version_info_types.py:92-112 | with every argument truthy the result is the record of the arguments, whatever the environment |
| VersionInference.GithubFromEnvironment | src/prefect/version_info_types.py:92-112 | with no arguments and the three variables set, the record holds their values and the derived url |
| VersionInference.GithubUrlWithoutServer | src/prefect/version_info_types.py:95 | without `GITHUB_SERVER_URL` the derived url is "None/" followed by the repository |
| VersionInference.GetDockerVersionInfo | src/prefect/version_info_types.py:154-168 | always fails with a ValueError for the Docker shape that names `image_name` among the missing fields |
| VersionInference.DockerMissingFields | src/prefect/version_info_types.py:154-168 | the missing fields are exactly the `None` arguments and `image_name`, in declaration order |
| VersionInference.RemotePathPiece | src/prefect/version_info_types.py:137 | `split(":")[1]` exists exactly when the remote has a ':', and contains no ':'; which piece it is, is stated by RemotePathPieceAfterColon (one ':') and RemotePathPieceBetweenColons (several) |
| VersionInference.RepositoryFromRemote | src/prefect/version_info_types.py:137 | a name is derived exactly when the remote has a ':'; it contains no '/' or ':' and does not end in '.', 'g', 'i' or 't' |
| VersionInference.RemotePathPieceAfterColon | src/prefect/version_info_types.py:137 | for `host:path` with one ':', the piece is `path` |
| VersionInference.RemotePathPieceBetweenColons | src/prefect/version_info_types.py:137 | for `host:mid:rest` with no ':' in `host` or `mid`, the piece is `mid`: only the text between the first two colons |
| VersionInference.RepositoryBetweenColons | src/prefect/version_info_types.py:137 | with several ':' the repository name is derived from the text between the first two alone |
| VersionInference.RemoteWithPort | src/prefect/version_info_types.py:137 | for `ssh://git@host:22/o/r.git` the piece is `//git@host`, the host rather than the path |
| VersionInference.HostPieceStripped | src/prefect/version_info_types.py:137 | `"//git@host".rstrip(".git")` is `//git@hos`, so that remote's repository name is `git@hos` |
| VersionInference.RStripDropsAppended | src/prefect/version_info_types.py:137 | characters of the set appended to a string are all stripped |
| VersionInference.RStripStopsAt | src/prefect/version_info_types.py:137 | stripping stops at the last character outside the set |
| VersionInference.BasenameAfterSlash | src/prefect/version_info_types.py:137 | the base name of `dir/name` is `name` when `name` has no '/' |
| VersionInference.ScpPathStripped | src/prefect/version_info_types.py:137 | `rstrip(".git")` of `owner/name.git` is `owner/` followed by `name` stripped of the set |
| VersionInference.RepositoryFromScpPath | src/prefect/version_info_types.py:137 | a remote whose piece after ':' is `owner/name.git` yields `name` stripped of '.', 'g', 'i', 't' (not `name`) |
| VersionInference.StripSuffixLetters | src/prefect/version_info_types.py:137 | `"prefect".rstrip(".git")` is "prefec" |
| VersionInference.ResolveByCommand | src/prefect/version_info_types.py:122-130 | a truthy argument is kept verbatim; a resolved value is always present; a failure is a wrapped error or an escaping cancellation |
| VersionInference.ResolvedFromCommand | src/prefect/version_info_types.py:122-130 | a falsy argument becomes `Some` of the trimmed stdout of its command; a raising command becomes the wrapped error, or escapes as a cancellation |
| VersionInference.WrapFault | src/prefect/version_info_types.py:144-147 | defines `except Exception as e: raise ValueError(...)`: an Exception becomes the wrapped git error, a cancellation passes through (no contract of its own) |
| VersionInference.ResolveRepository | src/prefect/version_info_types.py:132-138 | a truthy repository is kept verbatim; a resolved value is always present; a failure is a wrapped error or an escaping cancellation |
| VersionInference.RepositoryFromRemoteQuery | src/prefect/version_info_types.py:132-138 | a falsy repository is the name derived from the trimmed remote url; a failing query is wrapped; a remote without ':' is the wrapped IndexError |
| VersionInference.ResolveUrl | src/prefect/version_info_types.py:140-143 | defines the url step: a falsy url is read from the remote only when the repository is truthy (no contract of its own) |
| VersionInference.GitVersionInfoOf | src/prefect/version_info_types.py:115-151 | truthy arguments reach the record unchanged; four truthy arguments give exactly their record; a failure is a wrapped ValueError, an escaping cancellation, or the unwrapped missing-url error when the url stays unset |
| VersionInference.GitFromRepository | src/prefect/version_info_types.py:132-151 | once version and branch are known: a record keeps them, is shape-valid, keeps a truthy repository and url, is exactly the arguments' record when both are truthy, and fails only with a wrapped error, a cancellation or the missing url |
| VersionInference.GitResolvedValues | src/prefect/version_info_types.py:121-143 | on success each falsy argument holds what the code assigns it: the trimmed commit, the trimmed branch, the name derived from the trimmed remote, and for the url the trimmed remote (non-empty name) or the argument unchanged (empty name) |
| VersionInference.GitFromCommands | src/prefect/version_info_types.py:115-151 | in a checkout with no arguments, the record is the trimmed commit, branch and remote url and the derived name; an empty derived name leaves the url unset and fails construction for `url` alone |
| VersionInference.GitCommitAndBranchFromCommands | src/prefect/version_info_types.py:122-130 | with no version or branch given, the getter continues with the two trimmed outputs |
| VersionInference.GitRemoteFromCommand | src/prefect/version_info_types.py:132-151 | with no repository or url given, both come from the same trimmed remote url, the url only for a non-empty name |
| VersionInference.UrlFromRemote | src/prefect/version_info_types.py:140-143 | with no url given, the url is the trimmed remote url exactly when the repository name is non-empty, and stays unset otherwise |
| VersionInference.GitFromResolved | src/prefect/version_info_types.py:132-151 | once the repository and url steps resolve, the outcome is the construction of exactly that record |
| VersionInference.ConstructGit | src/prefect/version_info_types.py:149-151 | with version, branch and repository resolved, the final construction fails only for an unset url, naming just `url` |
| VersionInference.GitCommandFailureIsWrapped | src/prefect/version_info_types.py:144-147 | a failing `git rev-parse HEAD` surfaces as one ValueError carrying its description |
| VersionInference.GitRepositoryDerived | src/prefect/version_info_types.py:132-147 | without a repository, a remote without ':' is a wrapped error and a remote with one yields the derived name |
| VersionInference.GitCommandsRun | src/prefect/version_info_types.py:121-147 | at most four commands run; with GitTraceStopsAtFailure, the trace ends at the command that raised |
| VersionInference.GitFromRepositoryRun | src/prefect/version_info_types.py:132-143 | the remote is queried at most twice, and neither rev-parse command runs in this stage; with repository and url given nothing runs |
| VersionInference.GitCommandsOnlyForFalsyArguments | src/prefect/version_info_types.py:121-143 | `rev-parse HEAD` runs exactly when the version is falsy, and first; a truthy branch skips `--abbrev-ref`; a truthy repository and url skip the remote query |
| VersionInference.GitTraceWhenResolved | src/prefect/version_info_types.py:121-143 | once the first three steps resolve, one command ran per falsy argument in order, and the remote is queried again only for a falsy url with a non-empty repository |
| VersionInference.GitTraceStopsAtFailure | src/prefect/version_info_types.py:121-147 | a failing version, branch or repository step is the last command run (the trace is the earlier steps' commands and that one) and the getter fails with that step's error |
| VersionInference.GetGitVersionInfo | src/prefect/version_info_types.py:115-151 | the method's result is the getter's outcome and `ran` is the exact command trace |
| VersionInference.RunIfFalsy | src/prefect/version_info_types.py:122-130 | resolves one argument and runs its command exactly when the argument is falsy |
| VersionInference.LookupRepository | src/prefect/version_info_types.py:132-138 | resolves the repository and queries the remote exactly when it is falsy |
| VersionInference.LookupUrl | src/prefect/version_info_types.py:140-143 | the url step, with the remote query recorded exactly when the url is falsy and the repository truthy |
| VersionInference.FinishGitVersionInfo | src/prefect/version_info_types.py:132-151 | the repository and url steps and the construction: outcome and command trace equal GitFromRepository and GitFromRepositoryRun |
| VersionInference.GetterFor | src/prefect/version_info_types.py:194-198 | every variant except the simple one has a getter, and it is the getter that builds that variant's kind |
| VersionInference.KindOf | src/prefect/version_info_types.py:194-198 | defines the kind each getter builds (no contract of its own; tied to the getters by AttemptBuildsItsKind) |
| VersionInference.LookupGetter | src/prefect/version_info_types.py:194-210 | a getter is found exactly for the Docker, GitHub and git tags, and it is that variant's getter |
| VersionInference.Attempt | src/prefect/version_info_types.py:216 | defines `await getter()`: each getter called with no arguments (no contract of its own) |
| VersionInference.DefaultGetters | src/prefect/version_info_types.py:201-205 | defines `default_getters`: Docker, then GitHub, then git; stated by DefaultOrderSkipsDocker (no contract of its own) |
| VersionInference.Only | src/prefect/version_info_types.py:214-219 | defines the outcome of the loop over a single getter: its record, or its error re-raised by `raise` (no contract of its own) |
| VersionInference.FirstSuccess | src/prefect/version_info_types.py:214-225 | defines the fallback over several getters; characterized by FirstSuccessCharacterized (no contract of its own) |
| VersionInference.InferredVersionInfo | src/prefect/version_info_types.py:179-225 | defines the outcome of `get_inferred_version_info`, `Success(None)` for the fall-through; implemented by GetInferredVersionInfo and characterized by the lemmas below (no contract of its own) |
| VersionInference.RunGetters | src/prefect/version_info_types.py:214-225 | one getter: its outcome re-raised as is; several: the first success, skipping ValueErrors, stopping at any other error, `None` when all raised ValueErrors; `tried` is a prefix of the getters whose earlier members all raised ValueErrors |
| VersionInference.GetInferredVersionInfo | src/prefect/version_info_types.py:179-225 | the outcome is the inference function's; an unknown type runs no getter, a named type runs exactly its getter, the default order calls a prefix of Docker, GitHub, git as the fallback rule dictates |
| VersionInference.UnknownTypeRejected | src/prefect/version_info_types.py:207-209 | any truthy type other than the Docker, GitHub and git values is rejected as unknown |
| VersionInference.SimpleTypeHasNoGetter | src/prefect/version_info_types.py:194-209 | `prefect:simple` is rejected as an unknown version type |
| VersionInference.NamedTypeRunsItsGetter | src/prefect/version_info_types.py:207-219 | a named type yields its own getter's outcome, error included |
| VersionInference.NamedGithubFromEnvironment | src/prefect/version_info_types.py:207-216 | `infer("vcs:github")` with the three GitHub variables set returns their record and the derived url |
| VersionInference.AttemptBuildsItsKind | src/prefect/version_info_types.py:72-168 | each getter builds its own kind: a returned record carries that kind's tag, and a construction failure is reported for that kind |
| VersionInference.DockerTypeAlwaysFails | src/prefect/version_info_types.py:195-219 | asking for the Docker type always fails with `image_name` missing |
| VersionInference.DefaultOrderSkipsDocker | src/prefect/version_info_types.py:201-220 | with no type (or an empty one) inference is the fallback over GitHub, then git |
| VersionInference.FirstSuccessCharacterized | src/prefect/version_info_types.py:214-225 | the fallback yields a record only from a getter preceded by ValueErrors only, an error only if it is not a ValueError and likewise preceded, and `None` exactly when every getter raised a ValueError |
| VersionInference.DefaultPrefersGithubEnvironment | src/prefect/version_info_types.py:201-220 | in GitHub Actions, default inference returns the environment's GitHub record |
| VersionInference.GitTypeReraisesFailure | src/prefect/version_info_types.py:210-219 | asking for the git type when git fails re-raises the wrapped ValueError |
| VersionInference.NothingAvailable | src/prefect/version_info_types.py:214-225 | with no GitHub variables and failing git, default inference returns `None` |
| VersionInference.CancellationPropagates | src/prefect/version_info_types.py:214-220 | a cancellation in the git getter propagates out of default inference |
| VersionInference.AttemptRecordsAreValid | src/prefect/version_info_types.py:72-168 | every record a getter returns has its shape and meets its requirements |
| VersionInference.InferredRecordsPassWrapper | src/prefect/version_info_types.py:214-216 | every record inference returns would be accepted unchanged by the intended `VersionInfo` wrapper |

## Left out

- Attribute: only the `type` tag and the declared field names are modelled. Other names
  Python resolves on the variant without `__getattr__`, such as `model_dump`,
  `model_fields` or `__class__`, are reported as an AttributeError here. The wrapper's own
  real field `root`, which never reaches `__getattr__`, is not modelled as an attribute.
  The same restriction applies to AttributeAsWritten and AsWrittenWrapperRejectsEverything.
- Async execution, `anyio.run_process` and `.decode()`: a command's result is its decoded
  stdout or the exception it raised, supplied by the `Runner` parameter. A runner that gives
  different answers for the same command on different calls is not modelled.
- `os.getenv`: the environment is a map parameter, read but never changed.
- The base record class's configuration, such as the extra-field policy and serialization.
  `src/prefect/_internal/schemas/bases.py` is not part of this model. Inputs carry only
  the `type` tag and the declared fields.
- The record framework's type coercion and its error message texts: a field is either
  given as a string or absent, and errors are constructors of `Error`, not texts.
- `SimpleVersionInfo(type="prefect:simple")` in the fall-through: it is built and discarded
  in the code, and always succeeds, so the model returns `None` directly.
- Unicode: strings are sequences of characters. `strip()` removes exactly the characters
  Python's `isspace` accepts, and there is no normalisation.
- The getters' own validation happens when they construct their record. The `VersionInfo`
  validator is modelled separately, as in the code.
- RunGetters and FirstSuccess see the getters only through their outcomes, so the model
  cannot express that a getter has side effects when it is called.
- The other repository files, the CLI, the docs generator and the SQL event models, are not
  part of this model.

## Findings

| source | as written | input that shows it | evidently intended | confidence | as-written member | corrected member |
|---|---|---|---|---|---|---|
| src/prefect/version_info_types.py:53-58 | `__getattr__` and the validator read `self.__root__`, the root field's name in the older framework API; on a `RootModel` the lookup misses and re-enters `__getattr__`, recursing until a RecursionError, which is not a ValueError | any valid GitHub record, e.g. version "3f2a", branch "main", repository "acme/app" | read the root field `root`, so validation reaches the variant and attributes are forwarded | not executed | VersionInfoTypes.AsWrittenWrapperRejectsEverything | VersionInfoTypes.WrapperAccepts |

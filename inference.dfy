/**
 * Inferring version provenance: one getter per kind (GitHub Actions environment, local git
 * checkout, container image) and the orchestrator that runs one named getter or tries them
 * in a fixed order. The process environment is a map and the subprocess runner an oracle.
 */
module VersionInference {
  import opened Wrappers
  import opened PyStrings
  import opened VersionInfoTypes

  /** The process environment, as `os.getenv` sees it. */
  type Env = map<string, string>

  /** The three git invocations the git getter may run; `Argv` gives each one's argument vector. */
  datatype Command = RevParseHead | RevParseAbbrevRef | ConfigRemoteUrl

  function Argv(c: Command): seq<string> {
    match c
    case RevParseHead => ["git", "rev-parse", "HEAD"]
    case RevParseAbbrevRef => ["git", "rev-parse", "--abbrev-ref", "HEAD"]
    case ConfigRemoteUrl => ["git", "config", "--get", "remote.origin.url"]
  }

  /** What awaiting `run_process(cmd)` yields: its decoded stdout, or the exception it raised. */
  datatype CmdResult = Completed(stdout: string) | Raised(fault: Fault)

  type Runner = Command -> CmdResult

  const GithubSha := "GITHUB_SHA"
  const GithubRef := "GITHUB_REF"
  const GithubRepository := "GITHUB_REPOSITORY"
  const GithubServerUrl := "GITHUB_SERVER_URL"


  function Getenv(env: Env, name: string): Option<string> {
    if name in env then Some(env[name]) else None
  }

  // ---- get_github_version_info ----

  /** The url the GitHub getter falls back to: server url, '/', repository, with `None` rendered as text. */
  function GithubDefaultUrl(env: Env, repository: Option<string>): string {
    Str(Getenv(env, GithubServerUrl)) + "/" + Str(repository)
  }

  /**
   * `get_github_version_info`: each field is the explicit argument when truthy, otherwise the
   * environment variable; the url is computed before any check; a falsy version, branch or
   * repository (checked in that order) is an error naming the variable that would supply it.
   */
  function GetGithubVersionInfo(version: Option<string>, branch: Option<string>,
                                repository: Option<string>, url: Option<string>, env: Env)
    : (r: Result<VersionRecord, Error>)
    ensures r.Success? <==> Truthy(Or(version, Getenv(env, GithubSha)))
                            && Truthy(Or(branch, Getenv(env, GithubRef)))
                            && Truthy(Or(repository, Getenv(env, GithubRepository)))
    ensures !Truthy(Or(version, Getenv(env, GithubSha))) ==>
              r == Failure(GithubFieldUnresolved("version", GithubSha))
    ensures Truthy(Or(version, Getenv(env, GithubSha))) && !Truthy(Or(branch, Getenv(env, GithubRef))) ==>
              r == Failure(GithubFieldUnresolved("branch", GithubRef))
    ensures Truthy(Or(version, Getenv(env, GithubSha))) && Truthy(Or(branch, Getenv(env, GithubRef)))
            && !Truthy(Or(repository, Getenv(env, GithubRepository))) ==>
              r == Failure(GithubFieldUnresolved("repository", GithubRepository))
    ensures r.Success? ==> r.value.Github? && ShapeValid(r.value) && MeetsTypeRequirements(r.value)
  {
    var version := Or(version, Getenv(env, GithubSha));
    var branch := Or(branch, Getenv(env, GithubRef));
    var repository := Or(repository, Getenv(env, GithubRepository));
    var url := Or(url, Some(GithubDefaultUrl(env, repository)));
    if !Truthy(version) then Failure(GithubFieldUnresolved("version", GithubSha))
    else if !Truthy(branch) then Failure(GithubFieldUnresolved("branch", GithubRef))
    else if !Truthy(repository) then Failure(GithubFieldUnresolved("repository", GithubRepository))
    else Construct(Github(version, branch, url, repository))
  }

  /**
   * Precedence: on success each field is the explicit argument when that is truthy and the
   * environment's value otherwise; the url is the explicit one verbatim, or the server url
   * joined to the resolved repository.
   */
  lemma GithubPrecedence(version: Option<string>, branch: Option<string>,
                         repository: Option<string>, url: Option<string>, env: Env)
    requires GetGithubVersionInfo(version, branch, repository, url, env).Success?
    ensures var rec := GetGithubVersionInfo(version, branch, repository, url, env).value;
            && rec.version == (if Truthy(version) then version else Getenv(env, GithubSha))
            && rec.branch == (if Truthy(branch) then branch else Getenv(env, GithubRef))
            && rec.repository == (if Truthy(repository) then repository else Getenv(env, GithubRepository))
            && rec.url == (if Truthy(url) then url else Some(GithubDefaultUrl(env, rec.repository)))
            && Truthy(rec.version) && Truthy(rec.branch) && Truthy(rec.repository)
  {
  }

  /** An empty-string argument behaves exactly like an omitted one, for every argument. */
  lemma GithubEmptyArgumentIsAbsent(version: Option<string>, branch: Option<string>,
                                    repository: Option<string>, url: Option<string>, env: Env)
    ensures GetGithubVersionInfo(Some(""), branch, repository, url, env)
         == GetGithubVersionInfo(None, branch, repository, url, env)
    ensures GetGithubVersionInfo(version, Some(""), repository, url, env)
         == GetGithubVersionInfo(version, None, repository, url, env)
    ensures GetGithubVersionInfo(version, branch, Some(""), url, env)
         == GetGithubVersionInfo(version, branch, None, url, env)
    ensures GetGithubVersionInfo(version, branch, repository, Some(""), env)
         == GetGithubVersionInfo(version, branch, repository, None, env)
  {
  }

  /** With every argument truthy, the environment is never consulted. */
  lemma GithubExplicitIgnoresEnvironment(version: Option<string>, branch: Option<string>,
                                         repository: Option<string>, url: Option<string>,
                                         env1: Env, env2: Env)
    requires Truthy(version) && Truthy(branch) && Truthy(repository) && Truthy(url)
    ensures GetGithubVersionInfo(version, branch, repository, url, env1)
         == GetGithubVersionInfo(version, branch, repository, url, env2)
         == Success(Github(version, branch, url, repository))
  {
  }

  /** Everything from the environment: the fields are the variables' values, the url is derived. */
  lemma GithubFromEnvironment(env: Env)
    requires GithubSha in env && env[GithubSha] != ""
    requires GithubRef in env && env[GithubRef] != ""
    requires GithubRepository in env && env[GithubRepository] != ""
    ensures GetGithubVersionInfo(None, None, None, None, env)
         == Success(Github(Some(env[GithubSha]), Some(env[GithubRef]),
                           Some(Str(Getenv(env, GithubServerUrl)) + "/" + env[GithubRepository]),
                           Some(env[GithubRepository])))
  {
  }

  /** Without GITHUB_SERVER_URL the derived url starts with the text "None". */
  lemma GithubUrlWithoutServer(version: Option<string>, branch: Option<string>,
                               repository: Option<string>, env: Env)
    requires GithubServerUrl !in env
    requires GetGithubVersionInfo(version, branch, repository, None, env).Success?
    ensures var rec := GetGithubVersionInfo(version, branch, repository, None, env).value;
            rec.url == Some("None/" + rec.repository.value)
  {
    GithubPrecedence(version, branch, repository, None, env);
    assert Str(Getenv(env, GithubServerUrl)) == "None";
    assert "None" + "/" == "None/";
  }

  // ---- get_docker_version_info ----

  /**
   * `get_docker_version_info`: the arguments go straight into the record, which never
   * receives the required `image_name`, so construction fails every time; each other field
   * is reported missing exactly when its argument is `None`.
   */
  function GetDockerVersionInfo(version: Option<string>, branch: Option<string>, url: Option<string>,
                                registry: Option<string>, image: Option<string>)
    : (r: Result<VersionRecord, Error>)
    ensures r.Failure? && IsValueError(r.error)
    ensures r.error.MissingFields? && r.error.kind == DOCKER && ImageName in r.error.fields
  {
    var candidate := Docker(version, branch, url, None, registry, image);
    assert ImageName in Required(DOCKER) && FieldValue(candidate, ImageName).None?;
    Construct(candidate)
  }

  /**
   * The error of the Docker getter lists the missing fields in declaration order: each
   * argument left `None`, and `image_name` always.
   */
  lemma DockerMissingFields(version: Option<string>, branch: Option<string>, url: Option<string>,
                            registry: Option<string>, image: Option<string>)
    ensures GetDockerVersionInfo(version, branch, url, registry, image).error.fields
         == MissingIf(version, Version) + (MissingIf(branch, Branch) + (MissingIf(url, Url)
            + ([ImageName] + (MissingIf(registry, Registry) + MissingIf(image, Image)))))
  {
    var r := Docker(version, branch, url, None, registry, image);
    DockerAbsent(r);
  }

  // ---- get_git_version_info ----

  /** The part of `remote_url` the repository name is cut from: `remote_url.split(":")[1]`. */
  function RemotePathPiece(remote: string): (piece: Option<string>)
    ensures piece.None? <==> ':' !in remote
    ensures piece.Some? ==> ':' !in piece.value
  {
    SplitHasSecondPiece(remote, ':');
    SplitPiecesLackSeparator(remote, ':');
    var parts := Split(remote, ':');
    if |parts| < 2 then None else Some(parts[1])
  }

  /** The characters `rstrip(".git")` removes: a set, so "prefect.git" loses its final 't' too. */
  const GitSuffixChars: set<char> := {'.', 'g', 'i', 't'}

  /**
   * The repository name as `get_git_version_info` derives it from the remote url:
   * `os.path.basename(remote_url.split(":")[1].rstrip(".git"))`; `None` stands for the
   * IndexError of a remote without ':'.
   */
  function RepositoryFromRemote(remote: string): (name: Option<string>)
    ensures name.None? <==> ':' !in remote
    ensures name.Some? ==> '/' !in name.value && ':' !in name.value
    ensures name.Some? && name.value != [] ==> name.value[|name.value| - 1] !in GitSuffixChars
  {
    match RemotePathPiece(remote)
    case None => None
    case Some(piece) =>
      var stripped := RStrip(piece, GitSuffixChars);
      var base := Basename(stripped);
      assert forall c :: c in base ==> c in piece by {
        forall c | c in base ensures c in piece {
          var i :| 0 <= i < |base| && base[i] == c;
          assert stripped[|stripped| - |base| + i] == c;
          assert piece[|stripped| - |base| + i] == c;
        }
      }
      Some(base)
  }

  /** With one ':' the piece is everything after it (the path of an scp-style remote). */
  lemma RemotePathPieceAfterColon(host: string, path: string)
    requires ':' !in host && ':' !in path
    ensures RemotePathPiece(host + ":" + path) == Some(path)
  {
    var s := host + ":" + path;
    var parts := Split(s, ':');
    SplitJoin(s, ':');
    SplitPiecesLackSeparator(s, ':');
    SplitHasSecondPiece(s, ':');
    JoinPrefix(parts, host, path);
  }

  /**
   * With several ':' the piece is only what lies between the first two: `split(":")[1]` of
   * `ssh://git@host:22/o/r.git` is `//git@host`, not the path.
   */
  lemma RemotePathPieceBetweenColons(host: string, mid: string, rest: string)
    requires ':' !in host && ':' !in mid
    ensures RemotePathPiece(host + ":" + mid + ":" + rest) == Some(mid)
  {
    SplitAfterPrefix(host, mid + ":" + rest, ':');
    SplitAfterPrefix(mid, rest, ':');
    assert host + ":" + mid + ":" + rest == host + [':'] + (mid + [':'] + rest);
  }

  /** With several ':' the repository name is cut from the text between the first two alone. */
  lemma RepositoryBetweenColons(host: string, mid: string, rest: string)
    requires ':' !in host && ':' !in mid
    ensures RepositoryFromRemote(host + ":" + mid + ":" + rest) == Some(Basename(RStrip(mid, GitSuffixChars)))
  {
    RemotePathPieceBetweenColons(host, mid, rest);
  }

  /**
   * An ssh remote with a port: the piece is the host `//git@host`, not the path; with
   * RepositoryBetweenColons and HostPieceStripped the name is cut from `//git@hos`.
   */
  lemma RemoteWithPort(remote: string)
    requires remote == "ssh://git@host:22/o/r.git"
    ensures RemotePathPiece(remote) == Some("//git@host")
  {
    var host, mid, rest := "ssh", "//git@host", "22/o/r.git";
    assert remote == host + ":" + mid + ":" + rest;
    RemotePathPieceBetweenColons(host, mid, rest);
  }

  /** `"//git@host".rstrip(".git")` is `//git@hos`. */
  lemma HostPieceStripped()
    ensures RStrip("//git@host", GitSuffixChars) == "//git@hos"
  {
    RStripDropsAppended("//git@hos", "t", GitSuffixChars);
    assert "//git@host" == "//git@hos" + "t";
    RStripStopsAt("//git@ho", 's', "", GitSuffixChars);
    assert "//git@hos" == "//git@ho" + ['s'] + "";
  }

  /** If the joined pieces are `host ':' path` with neither containing ':', the pieces are exactly those two. */
  lemma JoinPrefix(parts: seq<string>, host: string, path: string)
    requires ':' !in host && ':' !in path
    requires forall k :: 0 <= k < |parts| ==> ':' !in parts[k]
    requires |parts| >= 2
    requires Join(parts, ':') == host + ":" + path
    ensures parts == [host, path]
  {
    var rest := Join(parts[1..], ':');
    assert Join(parts, ':') == parts[0] + [':'] + rest;
    PrefixWithoutSeparator(parts[0], rest, host, path);
  }

  /** `a ':' b == c ':' d` with no ':' in `a` or `c` forces `a == c` and `b == d`. */
  lemma PrefixWithoutSeparator(a: string, b: string, c: string, d: string)
    requires ':' !in a && ':' !in c
    requires a + [':'] + b == c + ":" + d
    ensures a == c && b == d
  {
    var s := a + [':'] + b;
    assert s[|a|] == ':' && s[|c|] == ':';
    assert |a| == |c|;
    assert a == s[..|a|] == c;
    assert b == s[|a| + 1..] == d;
  }

  /** Characters of the set appended to `s` are all stripped, whatever `s` itself ends with. */
  lemma {:induction false} RStripDropsAppended(s: string, tail: string, chars: set<char>)
    requires forall c :: c in tail ==> c in chars
    ensures RStrip(s + tail, chars) == RStrip(s, chars)
    decreases |tail|
  {
    if |tail| > 0 {
      var t := s + tail;
      assert t[|t| - 1] == tail[|tail| - 1];
      assert RStrip(t, chars) == RStrip(t[..|t| - 1], chars);
      assert t[..|t| - 1] == s + tail[..|tail| - 1];
      RStripDropsAppended(s, tail[..|tail| - 1], chars);
    } else {
      assert s + tail == s;
    }
  }

  /** Stripping never reaches past a character outside the set. */
  lemma {:induction false} RStripStopsAt(a: string, c: char, b: string, chars: set<char>)
    requires c !in chars
    ensures RStrip(a + [c] + b, chars) == a + [c] + RStrip(b, chars)
    decreases |b|
  {
    var t := a + [c] + b;
    if |b| > 0 {
      assert t[..|t| - 1] == a + [c] + b[..|b| - 1];
      RStripStopsAt(a, c, b[..|b| - 1], chars);
    } else {
      assert t == a + [c];
    }
  }

  /** The base name of `dir/name` is `name` when `name` has no '/'. */
  lemma {:induction false} BasenameAfterSlash(dir: string, name: string)
    requires '/' !in name
    ensures Basename(dir + "/" + name) == name
    decreases |name|
  {
    var p := dir + "/" + name;
    if |name| > 0 {
      assert p[..|p| - 1] == dir + "/" + name[..|name| - 1];
      BasenameAfterSlash(dir, name[..|name| - 1]);
      assert name == name[..|name| - 1] + [name[|name| - 1]];
    }
  }

  /** A remote whose piece after ':' is `owner/name.git` yields `name` stripped of '.', 'g', 'i', 't'. */
  lemma RepositoryFromScpPath(remote: string, owner: string, name: string)
    requires '/' !in name
    requires RemotePathPiece(remote) == Some(owner + "/" + name + ".git")
    ensures RepositoryFromRemote(remote) == Some(RStrip(name, GitSuffixChars))
  {
    ScpPathStripped(owner, name);
    var stem := RStrip(name, GitSuffixChars);
    assert '/' !in stem by {
      assert stem == name[..|stem|];
    }
    BasenameAfterSlash(owner, stem);
    assert RepositoryFromRemote(remote) == Some(Basename(RStrip(owner + "/" + name + ".git", GitSuffixChars)));
  }

  /** `(owner/name.git).rstrip(".git")` is `owner/` followed by `name.rstrip(".git")`. */
  lemma ScpPathStripped(owner: string, name: string)
    ensures RStrip(owner + "/" + name + ".git", GitSuffixChars) == owner + "/" + RStrip(name, GitSuffixChars)
  {
    var dir := owner + "/" + name;
    RStripDropsAppended(dir, ".git", GitSuffixChars);
    assert dir == owner + ['/'] + name;
    RStripStopsAt(owner, '/', name, GitSuffixChars);
  }

  /** `"prefect".rstrip(".git")`: the final t goes, the c before it stops the stripping. */
  lemma StripSuffixLetters(name: string)
    requires name == "prefect"
    ensures RStrip(name, GitSuffixChars) == "prefec"
  {
    RStripDropsAppended("", "t", GitSuffixChars);
    RStripStopsAt("prefe", 'c', "t", GitSuffixChars);
    assert name == "prefe" + ['c'] + "t";
    assert "" + "t" == "t";
  }

  /** An explicit argument when truthy, otherwise the trimmed output of `cmd`. */
  function ResolveByCommand(arg: Option<string>, cmd: Command, run: Runner): (r: Result<Option<string>, Error>)
    ensures r.Success? ==> r.value.Some?
    ensures Truthy(arg) ==> r == Success(arg)
    ensures r.Failure? ==> r.error.GitInfoUnavailable? || r.error == Interrupted(Cancelled)
  {
    if Truthy(arg) then Success(arg)
    else match run(cmd)
      case Completed(out) => Success(Some(Strip(out)))
      case Raised(fault) => Failure(WrapFault(fault))
  }

  /** A falsy argument becomes the trimmed output of its command; a failing command is wrapped. */
  lemma ResolvedFromCommand(arg: Option<string>, cmd: Command, run: Runner)
    requires !Truthy(arg)
    ensures run(cmd).Completed? ==> ResolveByCommand(arg, cmd, run) == Success(Some(Strip(run(cmd).stdout)))
    ensures run(cmd).Raised? ==> ResolveByCommand(arg, cmd, run) == Failure(WrapFault(run(cmd).fault))
  {
  }

  /** `except Exception as e: raise ValueError(...)`: an Exception is wrapped, a cancellation escapes. */
  function WrapFault(fault: Fault): Error {
    match fault
    case ProcessFailed(d) => GitInfoUnavailable(CommandFailed(d))
    case Cancelled => Interrupted(Cancelled)
  }

  /** The explicit repository when truthy, otherwise the name derived from the remote url. */
  function ResolveRepository(repository: Option<string>, run: Runner): (r: Result<Option<string>, Error>)
    ensures r.Success? ==> r.value.Some?
    ensures Truthy(repository) ==> r == Success(repository)
    ensures r.Failure? ==> r.error.GitInfoUnavailable? || r.error == Interrupted(Cancelled)
  {
    if Truthy(repository) then Success(repository)
    else match run(ConfigRemoteUrl)
      case Raised(fault) => Failure(WrapFault(fault))
      case Completed(out) =>
        match RepositoryFromRemote(Strip(out))
        case None => Failure(GitInfoUnavailable(NoColonInRemote(Strip(out))))
        case Some(name) => Success(Some(name))
  }

  /**
   * A falsy repository is the name derived from the trimmed remote url; a failing query is
   * wrapped, and a remote without ':' is reported as the IndexError it raises.
   */
  lemma RepositoryFromRemoteQuery(repository: Option<string>, run: Runner)
    requires !Truthy(repository)
    ensures run(ConfigRemoteUrl).Raised? ==>
              ResolveRepository(repository, run) == Failure(WrapFault(run(ConfigRemoteUrl).fault))
    ensures run(ConfigRemoteUrl).Completed? && ':' in Strip(run(ConfigRemoteUrl).stdout) ==>
              ResolveRepository(repository, run) == Success(RepositoryFromRemote(Strip(run(ConfigRemoteUrl).stdout)))
    ensures run(ConfigRemoteUrl).Completed? && ':' !in Strip(run(ConfigRemoteUrl).stdout) ==>
              ResolveRepository(repository, run)
              == Failure(GitInfoUnavailable(NoColonInRemote(Strip(run(ConfigRemoteUrl).stdout))))
  {
  }

  /**
   * The outcome of `get_git_version_info`, step by step as the function performs it; a
   * failure inside the try block is wrapped, the final construction is not.
   */
  function GitVersionInfoOf(version: Option<string>, branch: Option<string>, url: Option<string>,
                            repository: Option<string>, run: Runner)
    : (r: Result<VersionRecord, Error>)
    ensures r.Success? ==> r.value.Git? && ShapeValid(r.value)
    ensures r.Success? && Truthy(version) ==> r.value.version == version
    ensures r.Success? && Truthy(branch) ==> r.value.branch == branch
    ensures r.Success? && Truthy(repository) ==> r.value.repository == repository
    ensures r.Success? && Truthy(url) ==> r.value.url == url
    ensures Truthy(version) && Truthy(branch) && Truthy(repository) && Truthy(url) ==>
              r == Success(Git(version, branch, url, repository))
    ensures r.Failure? ==> r.error.GitInfoUnavailable? || r.error == Interrupted(Cancelled)
                           || (r.error == MissingFields(GIT, [Url]) && !Truthy(url))
  {
    var v :- ResolveByCommand(version, RevParseHead, run);
    var b :- ResolveByCommand(branch, RevParseAbbrevRef, run);
    assert v.Some? && b.Some? && (Truthy(version) ==> v == version) && (Truthy(branch) ==> b == branch);
    GitFromRepository(v, b, url, repository, run)
  }

  /**
   * The rest of `get_git_version_info` once version and branch are known: the repository, then
   * the url, then the record; only an unset url fails the construction.
   */
  function GitFromRepository(v: Option<string>, b: Option<string>, url: Option<string>,
                             repository: Option<string>, run: Runner)
    : (r: Result<VersionRecord, Error>)
    ensures r.Success? ==> r.value.Git? && ShapeValid(r.value) && r.value.version == v && r.value.branch == b
    ensures r.Success? && Truthy(repository) ==> r.value.repository == repository
    ensures r.Success? && Truthy(url) ==> r.value.url == url
    ensures v.Some? && b.Some? && Truthy(repository) && Truthy(url) ==> r == Success(Git(v, b, url, repository))
    ensures v.Some? && b.Some? && r.Failure? ==>
              r.error.GitInfoUnavailable? || r.error == Interrupted(Cancelled) || (r.error == MissingFields(GIT, [Url]) && !Truthy(url))
  {
    var repo :- ResolveRepository(repository, run);
    var u :- ResolveUrl(url, repo, run);
    ConstructGit(v, b, u, repo);
    Construct(Git(v, b, u, repo))
  }

  /** The url step: a falsy url is read from the remote once a non-empty repository name is known. */
  function ResolveUrl(url: Option<string>, repo: Option<string>, run: Runner): Result<Option<string>, Error> {
    if !Truthy(url) && Truthy(repo) then ResolveByCommand(url, ConfigRemoteUrl, run) else Success(url)
  }

  /** A git record with version, branch and repository fails construction only for a missing url. */
  lemma ConstructGit(v: Option<string>, b: Option<string>, u: Option<string>, repo: Option<string>)
    ensures v.Some? && b.Some? && repo.Some? ==>
              Construct(Git(v, b, u, repo))
              == if u.Some? then Success(Git(v, b, u, repo)) else Failure(MissingFields(GIT, [Url]))
  {
    if v.Some? && b.Some? && repo.Some? {
      GitAbsent(Git(v, b, u, repo));
      assert MissingIf(v, Version) == [] && MissingIf(b, Branch) == [] && MissingIf(repo, Repository) == [];
      assert AbsentRequired(Git(v, b, u, repo)) == MissingIf(u, Url);
    }
  }

  /**
   * Where each falsy argument's value comes from: version and branch are the trimmed outputs of
   * `rev-parse HEAD` and `rev-parse --abbrev-ref HEAD`, the repository is the name derived from
   * the trimmed remote url, and a falsy url becomes that remote url when the name is non-empty
   * and stays as given otherwise.
   */
  lemma GitResolvedValues(version: Option<string>, branch: Option<string>, url: Option<string>,
                          repository: Option<string>, run: Runner)
    requires GitVersionInfoOf(version, branch, url, repository, run).Success?
    ensures var rec := GitVersionInfoOf(version, branch, url, repository, run).value;
            && (!Truthy(version) ==> run(RevParseHead).Completed?
                                     && rec.version == Some(Strip(run(RevParseHead).stdout)))
            && (!Truthy(branch) ==> run(RevParseAbbrevRef).Completed?
                                    && rec.branch == Some(Strip(run(RevParseAbbrevRef).stdout)))
            && (!Truthy(repository) ==> run(ConfigRemoteUrl).Completed?
                                        && rec.repository == RepositoryFromRemote(Strip(run(ConfigRemoteUrl).stdout)))
            && (!Truthy(url) && Truthy(rec.repository) ==> run(ConfigRemoteUrl).Completed?
                                                           && rec.url == Some(Strip(run(ConfigRemoteUrl).stdout)))
            && (!Truthy(url) && !Truthy(rec.repository) ==> rec.url == url)
  {
    var v := ResolveByCommand(version, RevParseHead, run).value;
    var b := ResolveByCommand(branch, RevParseAbbrevRef, run).value;
    var repo := ResolveRepository(repository, run).value;
    var u := ResolveUrl(url, repo, run).value;
    ConstructGit(v, b, u, repo);
    assert GitVersionInfoOf(version, branch, url, repository, run) == Success(Git(v, b, u, repo));
    if !Truthy(version) {
      ResolvedFromCommand(version, RevParseHead, run);
    }
    if !Truthy(branch) {
      ResolvedFromCommand(branch, RevParseAbbrevRef, run);
    }
    if !Truthy(repository) {
      RepositoryFromRemoteQuery(repository, run);
    }
    if !Truthy(url) && Truthy(repo) {
      ResolvedFromCommand(url, ConfigRemoteUrl, run);
    }
  }

  /**
   * In a checkout, with no argument given: the record holds the trimmed commit and branch, the
   * trimmed remote url and the name derived from it; a remote whose derived name is empty
   * leaves the url unset, and the construction then fails for the url alone.
   */
  lemma GitFromCommands(run: Runner, head: string, branch: string, remote: string)
    requires run(RevParseHead) == Completed(head)
    requires run(RevParseAbbrevRef) == Completed(branch)
    requires run(ConfigRemoteUrl) == Completed(remote)
    requires ':' in Strip(remote)
    ensures RepositoryFromRemote(Strip(remote)).value != "" ==>
              GitVersionInfoOf(None, None, None, None, run)
              == Success(Git(Some(Strip(head)), Some(Strip(branch)), Some(Strip(remote)),
                             RepositoryFromRemote(Strip(remote))))
    ensures RepositoryFromRemote(Strip(remote)).value == "" ==>
              GitVersionInfoOf(None, None, None, None, run) == Failure(MissingFields(GIT, [Url]))
  {
    var h, b := Some(Strip(head)), Some(Strip(branch));
    var repo := RepositoryFromRemote(Strip(remote));
    var u := if Truthy(repo) then Some(Strip(remote)) else None;
    GitCommitAndBranchFromCommands(run, head, branch);
    GitRemoteFromCommand(h, b, run, remote);
    ConstructGit(h, b, u, repo);
  }

  /** With no version or branch given, the getter continues with the two trimmed outputs. */
  lemma GitCommitAndBranchFromCommands(run: Runner, head: string, branch: string)
    requires run(RevParseHead) == Completed(head)
    requires run(RevParseAbbrevRef) == Completed(branch)
    ensures GitVersionInfoOf(None, None, None, None, run)
         == GitFromRepository(Some(Strip(head)), Some(Strip(branch)), None, None, run)
  {
    ResolvedFromCommand(None, RevParseHead, run);
    ResolvedFromCommand(None, RevParseAbbrevRef, run);
  }

  /** With no repository or url given, both come from one remote url containing ':'. */
  lemma GitRemoteFromCommand(v: Option<string>, b: Option<string>, run: Runner, remote: string)
    requires run(ConfigRemoteUrl) == Completed(remote)
    requires ':' in Strip(remote)
    ensures var repo := RepositoryFromRemote(Strip(remote));
            GitFromRepository(v, b, None, None, run)
            == Construct(Git(v, b, if Truthy(repo) then Some(Strip(remote)) else None, repo))
  {
    var repo := RepositoryFromRemote(Strip(remote));
    RepositoryFromRemoteQuery(None, run);
    UrlFromRemote(repo, run, remote);
    GitFromResolved(v, b, None, None, run, repo, if Truthy(repo) then Some(Strip(remote)) else None);
  }

  /** Once the repository and url steps resolve, the stage is the construction of their record. */
  lemma GitFromResolved(v: Option<string>, b: Option<string>, url: Option<string>, repository: Option<string>,
                        run: Runner, repo: Option<string>, u: Option<string>)
    requires ResolveRepository(repository, run) == Success(repo)
    requires ResolveUrl(url, repo, run) == Success(u)
    ensures GitFromRepository(v, b, url, repository, run) == Construct(Git(v, b, u, repo))
  {
  }

  /** With no url given, the url is the trimmed remote url exactly when the repository name is non-empty. */
  lemma UrlFromRemote(repo: Option<string>, run: Runner, remote: string)
    requires run(ConfigRemoteUrl) == Completed(remote)
    ensures ResolveUrl(None, repo, run) == Success(if Truthy(repo) then Some(Strip(remote)) else None)
  {
    if Truthy(repo) {
      ResolvedFromCommand(None, ConfigRemoteUrl, run);
    }
  }

  /** A failing command is reported as one wrapped ValueError carrying its description. */
  lemma GitCommandFailureIsWrapped(version: Option<string>, branch: Option<string>, url: Option<string>,
                                   repository: Option<string>, run: Runner, d: string)
    requires !Truthy(version) && run(RevParseHead) == Raised(ProcessFailed(d))
    ensures GitVersionInfoOf(version, branch, url, repository, run)
         == Failure(GitInfoUnavailable(CommandFailed(d)))
    ensures IsValueError(GitInfoUnavailable(CommandFailed(d)))
  {
  }

  /**
   * Without an explicit repository, it is the name derived from the trimmed remote url, and a
   * remote without ':' is reported as a wrapped error.
   */
  lemma GitRepositoryDerived(version: Option<string>, branch: Option<string>, url: Option<string>,
                             repository: Option<string>, run: Runner, out: string)
    requires Truthy(version) && Truthy(branch) && Truthy(url) && !Truthy(repository)
    requires run(ConfigRemoteUrl) == Completed(out)
    ensures ':' !in Strip(out) ==> GitVersionInfoOf(version, branch, url, repository, run)
                                   == Failure(GitInfoUnavailable(NoColonInRemote(Strip(out))))
    ensures ':' in Strip(out) ==> GitVersionInfoOf(version, branch, url, repository, run)
                                  == Success(Git(version, branch, url, RepositoryFromRemote(Strip(out))))
  {
  }

  /**
   * The git commands `get_git_version_info` runs, in order: one per falsy argument among
   * version, branch and repository, stopping at the first that raises, then the remote url
   * again for a falsy url once a non-empty repository name is known.
   */
  function GitCommandsRun(version: Option<string>, branch: Option<string>, url: Option<string>,
                          repository: Option<string>, run: Runner): (ran: seq<Command>)
    ensures |ran| <= 4
  {
    var first := if Truthy(version) then [] else [RevParseHead];
    if ResolveByCommand(version, RevParseHead, run).Failure? then first
    else
      var second := first + (if Truthy(branch) then [] else [RevParseAbbrevRef]);
      if ResolveByCommand(branch, RevParseAbbrevRef, run).Failure? then second
      else
        second + GitFromRepositoryRun(url, repository, run)
  }

  /** The commands of `GitFromRepository`: the remote for a falsy repository, again for the url. */
  function GitFromRepositoryRun(url: Option<string>, repository: Option<string>, run: Runner): (ran: seq<Command>)
    ensures |ran| <= 2 && RevParseHead !in ran && RevParseAbbrevRef !in ran
    ensures Truthy(repository) && Truthy(url) ==> ran == []
  {
    var third := if Truthy(repository) then [] else [ConfigRemoteUrl];
    match ResolveRepository(repository, run)
    case Failure(_) => third
    case Success(repo) => third + (if !Truthy(url) && Truthy(repo) then [ConfigRemoteUrl] else [])
  }

  /**
   * The git getter runs `git rev-parse HEAD` exactly when the version is falsy, first of all;
   * it never asks git for the branch when a branch is given, nor for the remote when both
   * repository and url are given.
   */
  lemma GitCommandsOnlyForFalsyArguments(version: Option<string>, branch: Option<string>, url: Option<string>,
                                         repository: Option<string>, run: Runner)
    ensures !Truthy(version) <==> RevParseHead in GitCommandsRun(version, branch, url, repository, run)
    ensures !Truthy(version) ==> GitCommandsRun(version, branch, url, repository, run)[0] == RevParseHead
    ensures Truthy(branch) ==> RevParseAbbrevRef !in GitCommandsRun(version, branch, url, repository, run)
    ensures Truthy(repository) && Truthy(url) ==> ConfigRemoteUrl !in GitCommandsRun(version, branch, url, repository, run)
  {
    var ran := GitCommandsRun(version, branch, url, repository, run);
    var first: seq<Command> := if Truthy(version) then [] else [RevParseHead];
    var second: seq<Command> := if Truthy(branch) then [] else [RevParseAbbrevRef];
    var rest := GitFromRepositoryRun(url, repository, run);
    assert RevParseHead !in second && RevParseHead !in rest;
    assert RevParseAbbrevRef !in first && RevParseAbbrevRef !in rest;
    assert ConfigRemoteUrl !in first && ConfigRemoteUrl !in second;
    assert ran == first || ran == first + second || ran == first + second + rest;
  }

  /**
   * Once version, branch and repository have resolved, the git getter has run exactly one
   * command per falsy one of them, in that order, and queries the remote once more for a
   * falsy url when the repository name is non-empty.
   */
  lemma GitTraceWhenResolved(version: Option<string>, branch: Option<string>, url: Option<string>,
                             repository: Option<string>, run: Runner)
    requires ResolveByCommand(version, RevParseHead, run).Success?
    requires ResolveByCommand(branch, RevParseAbbrevRef, run).Success?
    requires ResolveRepository(repository, run).Success?
    ensures GitCommandsRun(version, branch, url, repository, run)
         == (if Truthy(version) then [] else [RevParseHead])
            + (if Truthy(branch) then [] else [RevParseAbbrevRef])
            + ((if Truthy(repository) then [] else [ConfigRemoteUrl])
               + (if Truthy(url) || !Truthy(ResolveRepository(repository, run).value) then [] else [ConfigRemoteUrl]))
  {
    var first: seq<Command> := if Truthy(version) then [] else [RevParseHead];
    var second: seq<Command> := if Truthy(branch) then [] else [RevParseAbbrevRef];
    var third: seq<Command> := if Truthy(repository) then [] else [ConfigRemoteUrl];
    var fourth: seq<Command> := if Truthy(url) || !Truthy(ResolveRepository(repository, run).value) then [] else [ConfigRemoteUrl];
    var rest := GitFromRepositoryRun(url, repository, run);
    assert rest == third + fourth by {
      assert ResolveRepository(repository, run) == Success(ResolveRepository(repository, run).value);
    }
    assert GitCommandsRun(version, branch, url, repository, run) == first + second + rest;
  }

  /**
   * A command that raises leaves the `try` block: it is the last command run, and the getter
   * fails with that step's error.
   */
  lemma GitTraceStopsAtFailure(version: Option<string>, branch: Option<string>, url: Option<string>,
                               repository: Option<string>, run: Runner)
    ensures ResolveByCommand(version, RevParseHead, run).Failure? ==>
              && GitCommandsRun(version, branch, url, repository, run) == [RevParseHead]
              && GitVersionInfoOf(version, branch, url, repository, run)
                 == Failure(ResolveByCommand(version, RevParseHead, run).error)
    ensures ResolveByCommand(version, RevParseHead, run).Success?
            && ResolveByCommand(branch, RevParseAbbrevRef, run).Failure? ==>
              && GitCommandsRun(version, branch, url, repository, run)
                 == (if Truthy(version) then [] else [RevParseHead]) + [RevParseAbbrevRef]
              && GitVersionInfoOf(version, branch, url, repository, run)
                 == Failure(ResolveByCommand(branch, RevParseAbbrevRef, run).error)
    ensures ResolveByCommand(version, RevParseHead, run).Success?
            && ResolveByCommand(branch, RevParseAbbrevRef, run).Success?
            && ResolveRepository(repository, run).Failure? ==>
              && GitCommandsRun(version, branch, url, repository, run)
                 == (if Truthy(version) then [] else [RevParseHead])
                    + (if Truthy(branch) then [] else [RevParseAbbrevRef]) + [ConfigRemoteUrl]
              && GitVersionInfoOf(version, branch, url, repository, run)
                 == Failure(ResolveRepository(repository, run).error)
  {
  }

  /**
   * `get_git_version_info`: resolves version, branch, repository and url in turn, running a
   * git command only for a falsy argument, and re-querying the remote for the url only when
   * the url is falsy and the repository resolved to a non-empty name. `ran` lists the
   * commands in the order they ran.
   */
  method GetGitVersionInfo(version: Option<string>, branch: Option<string>, url: Option<string>,
                           repository: Option<string>, run: Runner)
    returns (res: Result<VersionRecord, Error>, ran: seq<Command>)
    ensures res == GitVersionInfoOf(version, branch, url, repository, run)
    ensures ran == GitCommandsRun(version, branch, url, repository, run)
  {
    var rv, c1 := RunIfFalsy(version, RevParseHead, run);
    ran := c1;
    if rv.Failure? {
      assert GitVersionInfoOf(version, branch, url, repository, run) == Failure(rv.error);
      assert ran == GitCommandsRun(version, branch, url, repository, run);
      return Failure(rv.error), ran;
    }
    var rb, c2 := RunIfFalsy(branch, RevParseAbbrevRef, run);
    ran := ran + c2;
    if rb.Failure? {
      assert GitVersionInfoOf(version, branch, url, repository, run) == Failure(rb.error);
      assert ran == GitCommandsRun(version, branch, url, repository, run);
      return Failure(rb.error), ran;
    }
    var rest, c3 := FinishGitVersionInfo(rv.value, rb.value, url, repository, run);
    ran := ran + c3;
    assert GitVersionInfoOf(version, branch, url, repository, run) == rest;
    res := rest;
  }

  /** The repository and url steps and the construction, recording the commands run. */
  method FinishGitVersionInfo(v: Option<string>, b: Option<string>, url: Option<string>,
                              repository: Option<string>, run: Runner)
    returns (res: Result<VersionRecord, Error>, ran: seq<Command>)
    ensures res == GitFromRepository(v, b, url, repository, run)
    ensures ran == GitFromRepositoryRun(url, repository, run)
  {
    var rr, c3 := LookupRepository(repository, run);
    ran := c3;
    if rr.Failure? {
      return Failure(rr.error), ran;
    }
    var ru, c4 := LookupUrl(url, rr.value, run);
    ran := ran + c4;
    if ru.Failure? {
      return Failure(ru.error), ran;
    }
    res := Construct(Git(v, b, ru.value, rr.value));
  }

  /** `if not arg: arg = (await run_process(cmd)).stdout.strip()`, recording `cmd` when it runs. */
  method RunIfFalsy(arg: Option<string>, cmd: Command, run: Runner)
    returns (r: Result<Option<string>, Error>, ran: seq<Command>)
    ensures r == ResolveByCommand(arg, cmd, run)
    ensures ran == if Truthy(arg) then [] else [cmd]
  {
    if Truthy(arg) {
      return Success(arg), [];
    }
    ran := [cmd];
    var result := run(cmd);
    if result.Raised? {
      return Failure(WrapFault(result.fault)), ran;
    }
    r := Success(Some(Strip(result.stdout)));
  }

  /** `if not url and repository:` read the url from the remote, recording the command when it runs. */
  method LookupUrl(url: Option<string>, repo: Option<string>, run: Runner)
    returns (r: Result<Option<string>, Error>, ran: seq<Command>)
    ensures r == ResolveUrl(url, repo, run)
    ensures ran == if !Truthy(url) && Truthy(repo) then [ConfigRemoteUrl] else []
  {
    if !Truthy(url) && Truthy(repo) {
      r, ran := RunIfFalsy(url, ConfigRemoteUrl, run);
    } else {
      r, ran := Success(url), [];
    }
  }

  /** `if not repository:` derive it from the remote url, recording the command when it runs. */
  method LookupRepository(repository: Option<string>, run: Runner)
    returns (r: Result<Option<string>, Error>, ran: seq<Command>)
    ensures r == ResolveRepository(repository, run)
    ensures ran == if Truthy(repository) then [] else [ConfigRemoteUrl]
  {
    if Truthy(repository) {
      return Success(repository), [];
    }
    ran := [ConfigRemoteUrl];
    var result := run(ConfigRemoteUrl);
    if result.Raised? {
      return Failure(WrapFault(result.fault)), ran;
    }
    var remoteUrl := Strip(result.stdout);
    var name := RepositoryFromRemote(remoteUrl);
    if name.None? {
      return Failure(GitInfoUnavailable(NoColonInRemote(remoteUrl))), ran;
    }
    r := Success(name);
  }

  // ---- get_inferred_version_info ----

  datatype Getter = DockerGetter | GithubGetter | GitGetter

  /** The kind of record each getter builds. */
  function KindOf(g: Getter): VersionType {
    match g
    case DockerGetter => DOCKER
    case GithubGetter => GITHUB
    case GitGetter => GIT
  }

  /** The getter `type_to_getter` holds for a variant; the simple variant has none. */
  function GetterFor(k: VersionType): (g: Option<Getter>)
    ensures g.None? <==> k == SIMPLE
    ensures g.Some? ==> KindOf(g.value) == k
  {
    match k
    case SIMPLE => None
    case GITHUB => Some(GithubGetter)
    case GIT => Some(GitGetter)
    case DOCKER => Some(DockerGetter)
  }

  /** `type_to_getter[tag]`: defined exactly for the Docker, GitHub and git tags. */
  function LookupGetter(tag: string): (g: Option<Getter>)
    ensures g.Some? <==> tag == TypeValue(DOCKER) || tag == TypeValue(GITHUB) || tag == TypeValue(GIT)
    ensures forall k :: tag == TypeValue(k) ==> g == GetterFor(k)
  {
    match FromTypeValue(tag)
    case None => None
    case Some(k) => GetterFor(k)
  }

  /** `default_getters`, in the order they are tried. */
  const DefaultGetters: seq<Getter> := [DockerGetter, GithubGetter, GitGetter]

  /** What awaiting `getter()`, with no arguments, yields. */
  function Attempt(g: Getter, env: Env, run: Runner): Result<VersionRecord, Error> {
    match g
    case DockerGetter => GetDockerVersionInfo(None, None, None, None, None)
    case GithubGetter => GetGithubVersionInfo(None, None, None, None, env)
    case GitGetter => GitVersionInfoOf(None, None, None, None, run)
  }

  /** What each getter yields when called: the loop below sees the getters only through this. */
  type Outcomes = Getter -> Result<VersionRecord, Error>

  /** The outcomes of the three getters in a given environment and with a given runner. */
  function Attempts(env: Env, run: Runner): Outcomes {
    g => Attempt(g, env, run)
  }

  /** The getter's attempt failed with a ValueError. */
  predicate FailedWithValueError(outcome: Result<VersionRecord, Error>) {
    outcome.Failure? && IsValueError(outcome.error)
  }

  /**
   * The loop over several getters: the first success, skipping ValueErrors and propagating
   * any other error; `Success(None)` when every getter raised a ValueError.
   */
  function FirstSuccess(getters: seq<Getter>, attempt: Outcomes): Result<Option<VersionRecord>, Error>
    decreases |getters|
  {
    if |getters| == 0 then Success(None)
    else match attempt(getters[0])
      case Success(rec) => Success(Some(rec))
      case Failure(e) => if IsValueError(e) then FirstSuccess(getters[1..], attempt) else Failure(e)
  }

  /** A single getter's outcome, re-raised as is. */
  function Only(outcome: Result<VersionRecord, Error>): Result<Option<VersionRecord>, Error> {
    match outcome
    case Success(rec) => Success(Some(rec))
    case Failure(e) => Failure(e)
  }

  /** The outcome of `get_inferred_version_info(version_type)`; `Success(None)` is the fall-through. */
  function InferredVersionInfo(versionType: Option<string>, env: Env, run: Runner)
    : Result<Option<VersionRecord>, Error>
  {
    if Truthy(versionType) then
      match LookupGetter(versionType.value)
      case None => Failure(UnknownVersionType(versionType.value))
      case Some(g) => Only(Attempts(env, run)(g))
    else FirstSuccess(DefaultGetters, Attempts(env, run))
  }

  /**
   * The `for getter in getters` loop: returns the first record; a ValueError moves on to the
   * next getter unless there is just one getter, in which case it is re-raised like any other
   * error; when every getter raised a ValueError the result is `None`. `tried` lists the
   * getters called, in order.
   */
  method RunGetters(getters: seq<Getter>, attempt: Outcomes)
    returns (res: Result<Option<VersionRecord>, Error>, tried: seq<Getter>)
    ensures |getters| == 1 ==> res == Only(attempt(getters[0]))
    ensures |getters| != 1 ==> res == FirstSuccess(getters, attempt)
    ensures |tried| <= |getters| && tried == getters[..|tried|]
    ensures |getters| > 0 ==> |tried| > 0
    ensures forall j :: 0 <= j < |tried| - 1 ==> FailedWithValueError(attempt(tried[j]))
    ensures |tried| < |getters| ==> !FailedWithValueError(attempt(tried[|tried| - 1]))
  {
    tried := [];
    var i := 0;
    while i < |getters|
      invariant 0 <= i <= |getters|
      invariant tried == getters[..i]
      invariant |getters| == 1 ==> i == 0
      invariant forall j :: 0 <= j < i ==> FailedWithValueError(attempt(getters[j]))
      invariant FirstSuccess(getters[i..], attempt) == FirstSuccess(getters, attempt)
    {
      var outcome := attempt(getters[i]);
      tried := tried + [getters[i]];
      if outcome.Success? {
        return Success(Some(outcome.value)), tried;
      }
      if !IsValueError(outcome.error) || |getters| == 1 {
        return Failure(outcome.error), tried;
      }
      assert getters[i..][1..] == getters[i + 1..];
      i := i + 1;
    }
    // Every getter raised a ValueError: a simple record is built, discarded, and None returned.
    res := Success(None);
  }

  /**
   * `get_inferred_version_info`: an unknown type is rejected before any getter runs; a named
   * type runs its one getter and re-raises its error; otherwise the default getters are tried
   * in order until one succeeds or raises something other than a ValueError. `tried` lists the
   * getters invoked.
   */
  method GetInferredVersionInfo(versionType: Option<string>, env: Env, run: Runner)
    returns (res: Result<Option<VersionRecord>, Error>, tried: seq<Getter>)
    ensures res == InferredVersionInfo(versionType, env, run)
    ensures Truthy(versionType) && LookupGetter(versionType.value).None? ==> tried == []
    ensures Truthy(versionType) && LookupGetter(versionType.value).Some? ==> tried == [LookupGetter(versionType.value).value]
    ensures !Truthy(versionType) ==>
              && 1 <= |tried| <= |DefaultGetters| && tried == DefaultGetters[..|tried|]
              && (forall j :: 0 <= j < |tried| - 1 ==> FailedWithValueError(Attempts(env, run)(tried[j])))
              && (|tried| < |DefaultGetters| ==> !FailedWithValueError(Attempts(env, run)(tried[|tried| - 1])))
  {
    var getters: seq<Getter>;
    if Truthy(versionType) {
      var g := LookupGetter(versionType.value);
      if g.None? {
        return Failure(UnknownVersionType(versionType.value)), [];
      }
      getters := [g.value];
    } else {
      getters := DefaultGetters;
    }
    res, tried := RunGetters(getters, Attempts(env, run));
  }

  // ---- Properties of inference ----

  /** Any truthy type without a getter, "prefect:simple" included, is rejected. */
  lemma UnknownTypeRejected(versionType: string, env: Env, run: Runner)
    requires versionType != ""
    requires versionType != TypeValue(DOCKER) && versionType != TypeValue(GITHUB) && versionType != TypeValue(GIT)
    ensures InferredVersionInfo(Some(versionType), env, run) == Failure(UnknownVersionType(versionType))
  {
  }

  lemma SimpleTypeHasNoGetter(env: Env, run: Runner)
    ensures InferredVersionInfo(Some(TypeValue(SIMPLE)), env, run) == Failure(UnknownVersionType("prefect:simple"))
  {
    UnknownTypeRejected(TypeValue(SIMPLE), env, run);
  }

  /** A named type runs its getter and nothing else: its result, or its error unchanged. */
  lemma NamedTypeRunsItsGetter(k: VersionType, env: Env, run: Runner)
    requires k != SIMPLE
    ensures InferredVersionInfo(Some(TypeValue(k)), env, run) == Only(Attempt(GetterFor(k).value, env, run))
  {
    var g := GetterFor(k).value;
    var t := TypeValue(k);
    assert Truthy(Some(t));
    assert LookupGetter(t) == Some(g);
    assert InferredVersionInfo(Some(t), env, run) == Only(Attempts(env, run)(g));
    assert Attempts(env, run)(g) == Attempt(g, env, run);
  }

  /** `infer("vcs:github")` in GitHub Actions returns the environment's record. */
  lemma NamedGithubFromEnvironment(env: Env, run: Runner)
    requires GithubSha in env && env[GithubSha] != ""
    requires GithubRef in env && env[GithubRef] != ""
    requires GithubRepository in env && env[GithubRepository] != ""
    ensures InferredVersionInfo(Some(TypeValue(GITHUB)), env, run)
         == Success(Some(Github(Some(env[GithubSha]), Some(env[GithubRef]),
                                Some(Str(Getenv(env, GithubServerUrl)) + "/" + env[GithubRepository]),
                                Some(env[GithubRepository]))))
  {
    NamedTypeRunsItsGetter(GITHUB, env, run);
    GithubFromEnvironment(env);
  }

  /**
   * Each getter builds records of its own kind: a record it returns carries that kind's tag, and
   * a construction failure it raises is reported for that kind.
   */
  lemma AttemptBuildsItsKind(g: Getter, env: Env, run: Runner)
    ensures Attempt(g, env, run).Success? ==> Tag(Attempt(g, env, run).value) == KindOf(g)
    ensures Attempt(g, env, run).Failure? && Attempt(g, env, run).error.MissingFields? ==>
              Attempt(g, env, run).error.kind == KindOf(g)
  {
  }

  /** Asking for the Docker type always fails: its getter never supplies `image_name`. */
  lemma DockerTypeAlwaysFails(env: Env, run: Runner)
    ensures var r := InferredVersionInfo(Some(TypeValue(DOCKER)), env, run);
            r.Failure? && r.error.MissingFields? && ImageName in r.error.fields
  {
  }

  /** In the default order the Docker getter is always skipped, so inference is GitHub, then git. */
  lemma DefaultOrderSkipsDocker(env: Env, run: Runner)
    ensures InferredVersionInfo(None, env, run) == FirstSuccess([GithubGetter, GitGetter], Attempts(env, run))
    ensures InferredVersionInfo(Some(""), env, run) == FirstSuccess([GithubGetter, GitGetter], Attempts(env, run))
  {
    assert DefaultGetters[1..] == [GithubGetter, GitGetter];
  }

  /**
   * What the fallback loop yields: a record only from the first getter that succeeds after
   * ValueErrors; an error only when it is not a ValueError and every earlier getter raised
   * one; nothing exactly when every getter raised a ValueError.
   */
  lemma {:induction false} FirstSuccessCharacterized(getters: seq<Getter>, attempt: Outcomes)
    ensures var r := FirstSuccess(getters, attempt);
            && (r == Success(None) <==> forall j :: 0 <= j < |getters| ==> FailedWithValueError(attempt(getters[j])))
            && (r.Success? && r.value.Some? ==>
                  exists i :: 0 <= i < |getters| && attempt(getters[i]) == Success(r.value.value)
                              && forall j :: 0 <= j < i ==> FailedWithValueError(attempt(getters[j])))
            && (r.Failure? ==>
                  !IsValueError(r.error)
                  && exists i :: 0 <= i < |getters| && attempt(getters[i]) == Failure(r.error)
                                 && forall j :: 0 <= j < i ==> FailedWithValueError(attempt(getters[j])))
    decreases |getters|
  {
    if |getters| > 0 {
      var tail := getters[1..];
      FirstSuccessCharacterized(tail, attempt);
      var r := FirstSuccess(getters, attempt);
      if FailedWithValueError(attempt(getters[0])) {
        assert r == FirstSuccess(tail, attempt);
        assert forall j :: 0 < j < |getters| ==> getters[j] == tail[j - 1];
        if r.Success? && r.value.Some? {
          var i :| 0 <= i < |tail| && attempt(tail[i]) == Success(r.value.value)
                   && forall j :: 0 <= j < i ==> FailedWithValueError(attempt(tail[j]));
          assert attempt(getters[i + 1]) == Success(r.value.value);
        }
        if r.Failure? {
          var i :| 0 <= i < |tail| && attempt(tail[i]) == Failure(r.error)
                   && forall j :: 0 <= j < i ==> FailedWithValueError(attempt(tail[j]));
          assert attempt(getters[i + 1]) == Failure(r.error);
        }
        if r == Success(None) {
          assert forall j :: 0 <= j < |getters| ==> FailedWithValueError(attempt(getters[j])) by {
            forall j | 0 <= j < |getters| ensures FailedWithValueError(attempt(getters[j])) {
              if j > 0 { assert getters[j] == tail[j - 1]; }
            }
          }
        } else {
          assert !forall j :: 0 <= j < |tail| ==> FailedWithValueError(attempt(tail[j]));
          var j :| 0 <= j < |tail| && !FailedWithValueError(attempt(tail[j]));
          assert getters[j + 1] == tail[j];
        }
      } else {
        assert !FailedWithValueError(attempt(getters[0]));
      }
    }
  }

  /** GitHub Actions: with the three variables set, inference by default returns their record. */
  lemma DefaultPrefersGithubEnvironment(env: Env, run: Runner)
    requires GithubSha in env && env[GithubSha] != ""
    requires GithubRef in env && env[GithubRef] != ""
    requires GithubRepository in env && env[GithubRepository] != ""
    ensures InferredVersionInfo(None, env, run)
         == Success(Some(Github(Some(env[GithubSha]), Some(env[GithubRef]),
                                Some(Str(Getenv(env, GithubServerUrl)) + "/" + env[GithubRepository]),
                                Some(env[GithubRepository]))))
  {
    DefaultOrderSkipsDocker(env, run);
    GithubFromEnvironment(env);
  }

  /** Asking for the git type when git fails re-raises the wrapped ValueError. */
  lemma GitTypeReraisesFailure(env: Env, run: Runner, d: string)
    requires run(RevParseHead) == Raised(ProcessFailed(d))
    ensures InferredVersionInfo(Some(TypeValue(GIT)), env, run) == Failure(GitInfoUnavailable(CommandFailed(d)))
  {
    assert Attempt(GitGetter, env, run) == Failure(GitInfoUnavailable(CommandFailed(d))) by {
      GitCommandFailureIsWrapped(None, None, None, None, run, d);
    }
    assert LookupGetter(TypeValue(GIT)) == Some(GitGetter);
    assert Attempts(env, run)(GitGetter) == Attempt(GitGetter, env, run);
  }

  /**
   * Nothing available (no GitHub variables, git failing): default inference falls through to
   * `None` instead of raising.
   */
  lemma NothingAvailable(env: Env, run: Runner, d: string)
    requires GithubSha !in env
    requires run(RevParseHead) == Raised(ProcessFailed(d))
    ensures InferredVersionInfo(None, env, run) == Success(None)
  {
    assert Attempt(GitGetter, env, run) == Failure(GitInfoUnavailable(CommandFailed(d))) by {
      GitCommandFailureIsWrapped(None, None, None, None, run, d);
    }
    assert Attempt(GithubGetter, env, run) == Failure(GithubFieldUnresolved("version", GithubSha)) by {
      assert Getenv(env, GithubSha) == None;
    }
    var attempt := Attempts(env, run);
    assert attempt(GitGetter) == Attempt(GitGetter, env, run);
    assert attempt(GithubGetter) == Attempt(GithubGetter, env, run);
    assert FirstSuccess([GithubGetter, GitGetter], attempt) == Success(None) by {
      assert [GithubGetter, GitGetter][1..] == [GitGetter] && [GitGetter][1..] == [];
    }
    DefaultOrderSkipsDocker(env, run);
  }

  /** A cancellation inside the git getter is not a ValueError: default inference propagates it. */
  lemma CancellationPropagates(env: Env, run: Runner)
    requires GithubSha !in env
    requires run(RevParseHead) == Raised(Cancelled)
    ensures InferredVersionInfo(None, env, run) == Failure(Interrupted(Cancelled))
  {
    assert Attempt(GithubGetter, env, run) == Failure(GithubFieldUnresolved("version", GithubSha));
    assert Attempt(GitGetter, env, run) == Failure(Interrupted(Cancelled));
    assert [GithubGetter, GitGetter][1..] == [GitGetter];
    DefaultOrderSkipsDocker(env, run);
  }

  /** Every record a getter returns is well-formed and meets its kind's requirements. */
  lemma AttemptRecordsAreValid(g: Getter, env: Env, run: Runner)
    requires Attempt(g, env, run).Success?
    ensures ShapeValid(Attempt(g, env, run).value) && MeetsTypeRequirements(Attempt(g, env, run).value)
  {
    var rec := Attempt(g, env, run).value;
    match g
    case DockerGetter =>
    case GithubGetter =>
    case GitGetter =>
      assert rec.Git?;
  }

  /**
   * Inferred records never pass through the `VersionInfo` wrapper, yet every record inference
   * returns is one the wrapper would accept unchanged.
   */
  lemma InferredRecordsPassWrapper(versionType: Option<string>, env: Env, run: Runner)
    requires InferredVersionInfo(versionType, env, run).Success?
    requires InferredVersionInfo(versionType, env, run).value.Some?
    ensures var rec := InferredVersionInfo(versionType, env, run).value.value;
            NewVersionInfo(ToFields(rec)) == Success(rec)
  {
    var rec := InferredVersionInfo(versionType, env, run).value.value;
    var g: Getter;
    if Truthy(versionType) {
      g := LookupGetter(versionType.value).value;
    } else {
      FirstSuccessCharacterized(DefaultGetters, Attempts(env, run));
      var i :| 0 <= i < |DefaultGetters| && Attempts(env, run)(DefaultGetters[i]) == Success(rec)
               && forall j :: 0 <= j < i ==> FailedWithValueError(Attempts(env, run)(DefaultGetters[j]));
      g := DefaultGetters[i];
    }
    assert Attempts(env, run)(g) == Success(rec);
    AttemptRecordsAreValid(g, env, run);
    WrapperAccepts(rec);
  }
}

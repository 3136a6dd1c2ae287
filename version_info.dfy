/**
 * The version-info data model: four record shapes told apart by their `type` tag, the
 * construction rule that every declared `str` field be present, and the `VersionInfo`
 * wrapper, which dispatches on the tag, checks the cross-field requirements once, and
 * forwards attribute reads to the active variant.
 */
module VersionInfoTypes {
  import opened Wrappers
  import opened PyStrings

  /** The discriminator values (the `VersionType` enumeration). */
  datatype VersionType = SIMPLE | GITHUB | GIT | DOCKER

  function TypeValue(k: VersionType): string {
    match k
    case SIMPLE => "prefect:simple"
    case GITHUB => "vcs:github"
    case GIT => "vcs:git"
    case DOCKER => "container:docker"
  }

  /** The variant a `type` tag selects, if any. */
  function FromTypeValue(s: string): (k: Option<VersionType>)
    ensures k.Some? ==> TypeValue(k.value) == s
    ensures k.None? <==> forall t: VersionType :: TypeValue(t) != s
  {
    if s == "prefect:simple" then Some(SIMPLE)
    else if s == "vcs:github" then Some(GITHUB)
    else if s == "vcs:git" then Some(GIT)
    else if s == "container:docker" then Some(DOCKER)
    else None
  }

  /**
   * A candidate record of one of the four shapes. A field is `None` when no value was
   * supplied (Python `None`); whether that is allowed depends on the shape.
   */
  datatype VersionRecord =
    | Simple(version: Option<string>, branch: Option<string>, url: Option<string>)
    | Github(version: Option<string>, branch: Option<string>, url: Option<string>,
             repository: Option<string>)
    | Git(version: Option<string>, branch: Option<string>, url: Option<string>,
          repository: Option<string>)
    | Docker(version: Option<string>, branch: Option<string>, url: Option<string>,
             imageName: Option<string>, registry: Option<string>, image: Option<string>)

  function Tag(r: VersionRecord): VersionType {
    match r
    case Simple(_, _, _) => SIMPLE
    case Github(_, _, _, _) => GITHUB
    case Git(_, _, _, _) => GIT
    case Docker(_, _, _, _, _, _) => DOCKER
  }

  /** Why a command run by the git getter failed. */
  datatype Fault =
    | ProcessFailed(description: string)  // non-zero exit, tool missing, ...: an `Exception`
    | Cancelled                           // cancellation of the awaiting task: not an `Exception`

  /** The cause carried by the git getter's wrapped error. */
  datatype GitCause =
    | CommandFailed(description: string)
    | NoColonInRemote(remote: string)     // `remote_url.split(":")[1]` raised IndexError

  datatype Error =
    | MissingDiscriminator                           // the union input has no `type`
    | UnknownDiscriminator(tag: string)              // `type` names no variant
    | MissingFields(kind: VersionType, fields: seq<Field>)   // required `str` fields absent
    | BranchRequired                                 // "branch is required when type is 'vcs:github'"
    | ImageRequired                                  // "image is required when type is 'container:docker'"
    | RegistryRequired                               // "registry is required when type is 'container:docker'"
    | GithubFieldUnresolved(field: string, envVar: string)
    | GitInfoUnavailable(cause: GitCause)            // "Error getting git version info: ..."
    | UnknownVersionType(value: string)              // "Unknown version type: ..."
    | NoSuchAttribute(name: string)                  // AttributeError from the pass-through
    | RootLookupRecursion                            // RecursionError from `self.__root__`
    | Interrupted(fault: Fault)                      // a non-Exception escaping the getter

  /**
   * Whether the error is raised as a `ValueError` (validation errors of the record framework
   * are a subclass of it); only such errors are skipped by the inference fallback loop.
   */
  predicate IsValueError(e: Error) {
    !(e.NoSuchAttribute? || e.RootLookupRecursion? || e.Interrupted?)
  }

  /** The declared `str` fields of the four shapes, under their Python names. */
  datatype Field = Version | Branch | Url | Repository | ImageName | Registry | Image

  function FieldName(f: Field): string {
    match f
    case Version => "version"
    case Branch => "branch"
    case Url => "url"
    case Repository => "repository"
    case ImageName => "image_name"
    case Registry => "registry"
    case Image => "image"
  }

  /** The field a Python attribute name denotes, if any. */
  function FieldNamed(name: string): (f: Option<Field>)
    ensures f.Some? ==> FieldName(f.value) == name
    ensures f.None? <==> forall g: Field :: FieldName(g) != name
    ensures forall g: Field :: FieldName(g) == name ==> f == Some(g)
  {
    if name == "version" then Some(Version)
    else if name == "branch" then Some(Branch)
    else if name == "url" then Some(Url)
    else if name == "repository" then Some(Repository)
    else if name == "image_name" then Some(ImageName)
    else if name == "registry" then Some(Registry)
    else if name == "image" then Some(Image)
    else None
  }

  /** The declared `str` fields of each shape, in declaration order. */
  function StrFields(k: VersionType): seq<Field> {
    match k
    case SIMPLE => [Version, Branch, Url]
    case GITHUB => [Version, Branch, Url, Repository]
    case GIT => [Version, Branch, Url, Repository]
    case DOCKER => [Version, Branch, Url, ImageName, Registry, Image]
  }

  /** The fields declared `str` without a default: every field except those of the simple shape. */
  function Required(k: VersionType): seq<Field> {
    if k == SIMPLE then [] else StrFields(k)
  }

  /** The value of a field of the record (`None` for a field its shape does not declare). */
  function FieldValue(r: VersionRecord, f: Field): Option<string> {
    match f
    case Version => r.version
    case Branch => r.branch
    case Url => r.url
    case Repository => if r.Github? || r.Git? then r.repository else None
    case ImageName => if r.Docker? then r.imageName else None
    case Registry => if r.Docker? then r.registry else None
    case Image => if r.Docker? then r.image else None
  }

  /** Every required `str` field of the record's shape has a value. */
  predicate ShapeValid(r: VersionRecord) {
    forall f :: f in Required(Tag(r)) ==> FieldValue(r, f).Some?
  }

  /** The fields in `fields` that have no value in `r`, in the order of `fields`. */
  function Absent(r: VersionRecord, fields: seq<Field>): (missing: seq<Field>)
    ensures forall f :: f in missing <==> f in fields && FieldValue(r, f).None?
    decreases |fields|
  {
    if |fields| == 0 then []
    else (if FieldValue(r, fields[0]).None? then [fields[0]] else []) + Absent(r, fields[1..])
  }

  /** The required fields the record lacks; none exactly when the record has its shape. */
  function AbsentRequired(r: VersionRecord): (missing: seq<Field>)
    ensures forall f :: f in missing <==> f in Required(Tag(r)) && FieldValue(r, f).None?
    ensures missing == [] <==> ShapeValid(r)
  {
    var missing := Absent(r, Required(Tag(r)));
    assert missing != [] ==> missing[0] in missing;
    missing
  }

  /** `[f]` when the value is `None`, otherwise nothing. */
  function MissingIf(arg: Option<string>, f: Field): seq<Field> {
    if arg.None? then [f] else []
  }

  /** Stepping through the Docker shape's required fields, last to first. */
  lemma DockerAbsent(r: VersionRecord)
    requires r.Docker?
    ensures AbsentRequired(r)
         == MissingIf(r.version, Version) + (MissingIf(r.branch, Branch) + (MissingIf(r.url, Url)
            + (MissingIf(r.imageName, ImageName) + (MissingIf(r.registry, Registry) + MissingIf(r.image, Image)))))
  {
    var image := MissingIf(r.image, Image);
    assert Absent(r, [Image]) == image by {
      AbsentStep(r, [Image]);
      assert [Image][1..] == [];
    }
    var registry := MissingIf(r.registry, Registry) + image;
    assert Absent(r, [Registry, Image]) == registry by {
      AbsentStep(r, [Registry, Image]);
      assert [Registry, Image][1..] == [Image];
    }
    var imageName := MissingIf(r.imageName, ImageName) + registry;
    assert Absent(r, [ImageName, Registry, Image]) == imageName by {
      AbsentStep(r, [ImageName, Registry, Image]);
      assert [ImageName, Registry, Image][1..] == [Registry, Image];
    }
    var url := MissingIf(r.url, Url) + imageName;
    assert Absent(r, [Url, ImageName, Registry, Image]) == url by {
      AbsentStep(r, [Url, ImageName, Registry, Image]);
      assert [Url, ImageName, Registry, Image][1..] == [ImageName, Registry, Image];
    }
    var branch := MissingIf(r.branch, Branch) + url;
    assert Absent(r, [Branch, Url, ImageName, Registry, Image]) == branch by {
      AbsentStep(r, [Branch, Url, ImageName, Registry, Image]);
      assert [Branch, Url, ImageName, Registry, Image][1..] == [Url, ImageName, Registry, Image];
    }
    assert Absent(r, [Version, Branch, Url, ImageName, Registry, Image]) == MissingIf(r.version, Version) + branch by {
      AbsentStep(r, [Version, Branch, Url, ImageName, Registry, Image]);
      assert [Version, Branch, Url, ImageName, Registry, Image][1..] == [Branch, Url, ImageName, Registry, Image];
    }
    assert Required(DOCKER) == [Version, Branch, Url, ImageName, Registry, Image];
  }

  lemma AbsentStep(r: VersionRecord, fields: seq<Field>)
    requires |fields| > 0
    ensures Absent(r, fields) == MissingIf(FieldValue(r, fields[0]), fields[0]) + Absent(r, fields[1..])
  {
  }

  /** Stepping through the git shape's required fields, last to first. */
  lemma GitAbsent(r: VersionRecord)
    requires r.Git?
    ensures AbsentRequired(r)
         == MissingIf(r.version, Version) + (MissingIf(r.branch, Branch) + (MissingIf(r.url, Url)
            + MissingIf(r.repository, Repository)))
  {
    var repository := MissingIf(r.repository, Repository);
    assert Absent(r, [Repository]) == repository by {
      AbsentStep(r, [Repository]);
      assert [Repository][1..] == [];
    }
    var url := MissingIf(r.url, Url) + repository;
    assert Absent(r, [Url, Repository]) == url by {
      AbsentStep(r, [Url, Repository]);
      assert [Url, Repository][1..] == [Repository];
    }
    var branch := MissingIf(r.branch, Branch) + url;
    assert Absent(r, [Branch, Url, Repository]) == branch by {
      AbsentStep(r, [Branch, Url, Repository]);
      assert [Branch, Url, Repository][1..] == [Url, Repository];
    }
    assert Absent(r, [Version, Branch, Url, Repository]) == MissingIf(r.version, Version) + branch by {
      AbsentStep(r, [Version, Branch, Url, Repository]);
      assert [Version, Branch, Url, Repository][1..] == [Branch, Url, Repository];
    }
    assert Required(GIT) == [Version, Branch, Url, Repository];
  }

  /**
   * Constructing a variant record (`GithubVersionInfo(type=..., ...)` and the like): the
   * framework rejects the candidate when a required `str` field is `None`, naming them all.
   */
  function Construct(r: VersionRecord): (res: Result<VersionRecord, Error>)
    ensures res.Success? <==> ShapeValid(r)
    ensures res.Success? ==> res.value == r
    ensures res.Failure? ==> res.error.MissingFields? && res.error.kind == Tag(r)
                             && res.error.fields != [] && IsValueError(res.error)
    ensures res.Failure? ==> forall f :: f in res.error.fields <==> f in Required(Tag(r)) && FieldValue(r, f).None?
  {
    var missing := AbsentRequired(r);
    if missing == [] then Success(r) else Failure(MissingFields(Tag(r), missing))
  }

  // ---- The untyped input of the union and its dispatch on `type` ----

  /** A key of the union's input: the `type` tag or a field name. */
  datatype Key = TypeKey | FieldKey(field: Field)

  /** The union's input: string values under `type` and field names; a missing key is `None`. */
  type Input = map<Key, string>

  function Get(m: Input, key: Key): Option<string> {
    if key in m then Some(m[key]) else None
  }

  /** The candidate of shape `k` whose fields are read from `m`. */
  function FromFields(k: VersionType, m: Input): (r: VersionRecord)
    ensures Tag(r) == k
    ensures forall f :: f in StrFields(k) ==> FieldValue(r, f) == Get(m, FieldKey(f))
  {
    match k
    case SIMPLE => Simple(Get(m, FieldKey(Version)), Get(m, FieldKey(Branch)), Get(m, FieldKey(Url)))
    case GITHUB => Github(Get(m, FieldKey(Version)), Get(m, FieldKey(Branch)), Get(m, FieldKey(Url)),
                          Get(m, FieldKey(Repository)))
    case GIT => Git(Get(m, FieldKey(Version)), Get(m, FieldKey(Branch)), Get(m, FieldKey(Url)),
                    Get(m, FieldKey(Repository)))
    case DOCKER => Docker(Get(m, FieldKey(Version)), Get(m, FieldKey(Branch)), Get(m, FieldKey(Url)),
                          Get(m, FieldKey(ImageName)), Get(m, FieldKey(Registry)), Get(m, FieldKey(Image)))
  }

  /** The record as the union's input: its `type` tag and every declared field that has a value. */
  function ToFields(r: VersionRecord): (m: Input)
    ensures TypeKey in m && m[TypeKey] == TypeValue(Tag(r))
    ensures forall f :: f in StrFields(Tag(r)) ==> Get(m, FieldKey(f)) == FieldValue(r, f)
  {
    (map f | f in StrFields(Tag(r)) && FieldValue(r, f).Some? :: FieldKey(f) := FieldValue(r, f).value)
    + map[TypeKey := TypeValue(Tag(r))]
  }

  /** The discriminated union: the `type` entry picks the shape, whose fields are then checked. */
  function ParseVersionInfo(m: Input): (res: Result<VersionRecord, Error>)
    ensures TypeKey !in m ==> res == Failure(MissingDiscriminator)
    ensures TypeKey in m && FromTypeValue(m[TypeKey]).None? ==> res == Failure(UnknownDiscriminator(m[TypeKey]))
    ensures res.Success? ==> TypeKey in m && TypeValue(Tag(res.value)) == m[TypeKey] && ShapeValid(res.value)
    ensures res.Success? ==> forall f :: f in StrFields(Tag(res.value)) ==> FieldValue(res.value, f) == Get(m, FieldKey(f))
    ensures TypeKey in m && FromTypeValue(m[TypeKey]).Some? ==>
              (res.Success? <==> forall f :: f in Required(FromTypeValue(m[TypeKey]).value) ==> FieldKey(f) in m)
    ensures TypeKey in m && FromTypeValue(m[TypeKey]).Some? && res.Failure? ==>
              && res.error.MissingFields? && res.error.kind == FromTypeValue(m[TypeKey]).value
              && forall f :: f in res.error.fields <==> f in Required(res.error.kind) && FieldKey(f) !in m
  {
    if TypeKey !in m then Failure(MissingDiscriminator)
    else match FromTypeValue(m[TypeKey])
      case None => Failure(UnknownDiscriminator(m[TypeKey]))
      case Some(k) => Construct(FromFields(k, m))
  }

  /** Two records of the same shape that agree on its declared fields are equal. */
  lemma RecordsAgreeOnFields(r: VersionRecord, s: VersionRecord)
    requires Tag(r) == Tag(s)
    requires forall f :: f in StrFields(Tag(r)) ==> FieldValue(r, f) == FieldValue(s, f)
    ensures r == s
  {
    assert FieldValue(r, Version) == FieldValue(s, Version);
    assert FieldValue(r, Branch) == FieldValue(s, Branch);
    assert FieldValue(r, Url) == FieldValue(s, Url);
    if r.Github? || r.Git? {
      assert FieldValue(r, Repository) == FieldValue(s, Repository);
    }
    if r.Docker? {
      assert FieldValue(r, ImageName) == FieldValue(s, ImageName);
      assert FieldValue(r, Registry) == FieldValue(s, Registry);
      assert FieldValue(r, Image) == FieldValue(s, Image);
    }
  }

  /**
   * Round trip: the union accepts the input of a record exactly when the record has its
   * shape, and then yields that same record.
   */
  lemma ParseToFields(r: VersionRecord)
    ensures ParseVersionInfo(ToFields(r)) == Construct(r)
    ensures ShapeValid(r) <==> ParseVersionInfo(ToFields(r)) == Success(r)
  {
    var m := ToFields(r);
    assert FromTypeValue(m[TypeKey]) == Some(Tag(r));
    RecordsAgreeOnFields(FromFields(Tag(r), m), r);
  }

  // ---- The `VersionInfo` wrapper ----

  /** The cross-field requirements, stated independently of the validator. */
  predicate MeetsTypeRequirements(r: VersionRecord) {
    && (r.Github? ==> Truthy(r.branch))
    && (r.Docker? ==> Truthy(r.image) && Truthy(r.registry))
  }

  /**
   * `validate_type_requirements` applied to the active variant: a GitHub record needs a
   * non-empty branch; a Docker record needs a non-empty image, checked before a non-empty
   * registry; the record is returned unchanged otherwise.
   */
  function ValidateTypeRequirements(root: VersionRecord): (res: Result<VersionRecord, Error>)
    ensures res.Success? <==> MeetsTypeRequirements(root)
    ensures res.Success? ==> res.value == root
    ensures root.Github? && !Truthy(root.branch) ==> res == Failure(BranchRequired)
    ensures root.Docker? && !Truthy(root.image) ==> res == Failure(ImageRequired)
    ensures root.Docker? && Truthy(root.image) && !Truthy(root.registry) ==> res == Failure(RegistryRequired)
    ensures res.Failure? ==> IsValueError(res.error)
  {
    match root
    case Github(_, branch, _, _) =>
      if !Truthy(branch) then Failure(BranchRequired) else Success(root)
    case Docker(_, _, _, _, registry, image) =>
      if !Truthy(image) then Failure(ImageRequired)
      else if !Truthy(registry) then Failure(RegistryRequired)
      else Success(root)
    case _ => Success(root)
  }

  /** `VersionInfo(...)`: dispatch on the tag, construct the variant, then validate it once. */
  function NewVersionInfo(m: Input): (res: Result<VersionRecord, Error>)
    ensures res.Success? <==> ParseVersionInfo(m).Success? && MeetsTypeRequirements(ParseVersionInfo(m).value)
    ensures res.Success? ==> res == ParseVersionInfo(m)
    ensures ParseVersionInfo(m).Failure? ==> res == ParseVersionInfo(m)
    ensures ParseVersionInfo(m).Success? && res.Failure? ==>
              res.error == BranchRequired || res.error == ImageRequired || res.error == RegistryRequired
  {
    var root :- ParseVersionInfo(m);
    ValidateTypeRequirements(root)
  }

  /** The wrapper accepts a record's input exactly when the record has its shape and meets its requirements. */
  lemma WrapperAccepts(r: VersionRecord)
    ensures NewVersionInfo(ToFields(r)).Success? <==> ShapeValid(r) && MeetsTypeRequirements(r)
    ensures NewVersionInfo(ToFields(r)).Success? ==> NewVersionInfo(ToFields(r)).value == r
  {
    ParseToFields(r);
  }

  /**
   * A complete record's input is rejected by the wrapper exactly as the validator rejects
   * the record: an empty GitHub branch, an empty Docker image, then an empty Docker registry.
   */
  lemma WrapperValidatesRecord(r: VersionRecord)
    requires ShapeValid(r)
    ensures NewVersionInfo(ToFields(r)) == ValidateTypeRequirements(r)
    ensures r.Github? && !Truthy(r.branch) ==> NewVersionInfo(ToFields(r)) == Failure(BranchRequired)
    ensures r.Docker? && !Truthy(r.image) ==> NewVersionInfo(ToFields(r)) == Failure(ImageRequired)
    ensures r.Docker? && Truthy(r.image) && !Truthy(r.registry) ==> NewVersionInfo(ToFields(r)) == Failure(RegistryRequired)
  {
    ParseToFields(r);
  }

  /**
   * The attribute pass-through (`__getattr__`), forwarding each read to the active variant:
   * `type` and the declared fields are found, any other name is an AttributeError.
   */
  function Attribute(root: VersionRecord, name: string): (res: Result<Option<string>, Error>)
    ensures res.Success? <==> name == "type" || exists f :: f in StrFields(Tag(root)) && FieldName(f) == name
    ensures name == "type" ==> res == Success(Some(TypeValue(Tag(root))))
    ensures forall f :: f in StrFields(Tag(root)) && FieldName(f) == name ==> res == Success(FieldValue(root, f))
    ensures res.Failure? ==> res.error == NoSuchAttribute(name) && !IsValueError(res.error)
  {
    var f := FieldNamed(name);
    if name == "type" then Success(Some(TypeValue(Tag(root))))
    else if f.Some? && f.value in StrFields(Tag(root)) then Success(FieldValue(root, f.value))
    else Failure(NoSuchAttribute(name))
  }

  /**
   * Round trip through the wrapper: every declared field read back through the pass-through
   * equals what the input supplied for it (`None` where it supplied nothing).
   */
  lemma PassThroughRoundTrip(m: Input, f: Field)
    requires NewVersionInfo(m).Success?
    requires f in StrFields(Tag(NewVersionInfo(m).value))
    ensures Attribute(NewVersionInfo(m).value, "type") == Success(Get(m, TypeKey))
    ensures Attribute(NewVersionInfo(m).value, FieldName(f)) == Success(Get(m, FieldKey(f)))
  {
  }

  // ---- The wrapper as written: `self.__root__` ----

  /**
   * The root lookup as written. `__root__` is the root field's name in the older framework
   * API; the `RootModel` used here names it `root`. The lookup misses, falls into the
   * wrapper's own `__getattr__`, which evaluates `self.__root__` again, without end; the
   * RecursionError that stops it is not a ValueError.
   */
  function RootAsWritten(v: VersionRecord): (res: Result<VersionRecord, Error>)
    ensures res.Failure? && !IsValueError(res.error)
  {
    Failure(RootLookupRecursion)
  }

  /** `validate_type_requirements` as written: it starts with `root = self.__root__`. */
  function ValidateTypeRequirementsAsWritten(v: VersionRecord): Result<VersionRecord, Error> {
    match RootAsWritten(v)
    case Failure(e) => Failure(e)
    case Success(root) => ValidateTypeRequirements(root)
  }

  /** `VersionInfo(...)` as written. */
  function NewVersionInfoAsWritten(m: Input): Result<VersionRecord, Error> {
    var root :- ParseVersionInfo(m);
    ValidateTypeRequirementsAsWritten(root)
  }

  /** The pass-through as written: `getattr(self.__root__, name)`. */
  function AttributeAsWritten(v: VersionRecord, name: string): Result<Option<string>, Error> {
    match RootAsWritten(v)
    case Failure(e) => Failure(e)
    case Success(root) => Attribute(root, name)
  }

  /**
   * As written, no input yields a `VersionInfo` and no attribute can be read through it,
   * even for a record the intended wrapper accepts; the error escapes callers that catch
   * ValueError.
   */
  lemma AsWrittenWrapperRejectsEverything(m: Input, v: VersionRecord, name: string)
    ensures NewVersionInfoAsWritten(m).Failure?
    ensures ParseVersionInfo(m).Success? ==> NewVersionInfoAsWritten(m) == Failure(RootLookupRecursion)
    ensures AttributeAsWritten(v, name) == Failure(RootLookupRecursion)
    ensures !IsValueError(RootLookupRecursion)
  {
  }

  /** A record that shows the difference: the intended wrapper accepts it, the written one does not. */
  lemma RootAliasCounterexample(r: VersionRecord)
    requires r == Github(Some("3f2a"), Some("main"), Some("https://github.com/acme/app"), Some("acme/app"))
    ensures NewVersionInfo(ToFields(r)) == Success(r)
    ensures NewVersionInfoAsWritten(ToFields(r)) == Failure(RootLookupRecursion)
  {
    assert ShapeValid(r) by {
      forall n | n in Required(Tag(r)) ensures FieldValue(r, n).Some? { }
    }
    WrapperAccepts(r);
    ParseToFields(r);
  }
}

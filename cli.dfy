/** The body of `main` before it calls the generator (`__main__.py` lines
    252-333): a fixed sequence of checks, the first failing one deciding the
    outcome, and the exit reason each outcome ends with (lines 41-46). */
module Cli {
  import opened Base
  import opened Json
  import opened Headers
  import opened Options
  import opened ProjectConfig

  /** The process exit reasons. */
  datatype Exit = OK | ERROR | KeyboardInterrupt

  /** The integer value of each exit reason. */
  function Code(e: Exit): (c: int)
    ensures 0 <= c <= 2
  {
    match e
    case OK => 0
    case ERROR => 1
    case KeyboardInterrupt => 2
  }

  /** Every way `main` stops before the generator. The first three are raised
      as `Error`; the others are printed and returned as `Exit.ERROR`. */
  datatype Failure =
    | UnsupportedProtocol(url: string)
    | InvalidHttpHeader(item: string)
    | GenericContainerTypesOnPy36
    | ExtraTemplateDataUnparsable(message: string)
    | AliasMappingUnparsable(message: string)
    | AliasMappingNotStrings
  {
    predicate Raised()
    {
      UnsupportedProtocol? || InvalidHttpHeader? || GenericContainerTypesOnPy36?
    }
  }

  /** Where the generator reads the schema from: `url_parsed or input or sys.stdin.read()`. */
  datatype Source = FromUrl(url: string) | FromPath(path: string) | FromStdin

  /** The arguments `main` hands to `generate` that the checks decide. */
  datatype Request = Request(
    source: Source,
    targetPythonVersion: PythonVersion,
    fieldConstraints: bool,
    useAnnotated: bool,
    useGenericContainerTypes: bool,
    httpHeaders: Option<seq<Header>>,
    httpIgnoreTls: bool,
    extraTemplateData: Option<Value>,
    aliases: Option<map<string, string>>,
    className: Option<string>)

  /** How `main` ends: the version is printed, a check fails, or the
      generator is called. */
  datatype Outcome = ShowVersion | Fail(failure: Failure) | Handoff(request: Request)

  /** The source the generator reads: the URL when one is given, else the
      input path, else standard input. */
  function SourceOf(o: Options): (s: Source)
    ensures s.FromStdin? <==> o.url.None? && o.input.None?
    ensures s.FromUrl? <==> o.url.Some?
    ensures s.FromUrl? ==> s.url == o.url.value
    ensures s.FromPath? ==> o.input == Some(s.path)
  {
    if o.url.Some? then FromUrl(o.url.value)
    else if o.input.Some? then FromPath(o.input.value)
    else FromStdin
  }

  /** A JSON object (loaded as a dict, the last duplicate key winning) whose
      values are all strings: the shape the alias mapping must have. */
  predicate IsStringMapping(v: Value)
  {
    v.Obj? && forall k | k in DictOf(v.fields) :: DictOf(v.fields)[k].Str?
  }

  /** The alias mapping a string-valued JSON object denotes. */
  function StringMapping(v: Value): (m: map<string, string>)
    requires IsStringMapping(v)
    ensures m.Keys == KeysOf(v.fields)
    ensures forall k | k in m :: Get(v.fields, k) == Some(Str(m[k]))
  {
    var d := DictOf(v.fields);
    map k | k in d :: d[k].s
  }

  /** Lines 307-316: the extra template data, when given, must be valid JSON;
      its shape is not checked. */
  function LoadExtraTemplateData(path: Option<string>, read: string -> JsonDoc): (r: Result<Option<Value>, Failure>)
    ensures path.None? ==> r == Ok(None)
    ensures path.Some? ==> match read(path.value)
      case Parsed(v) => r == Ok(Some(v))
      case SyntaxError(m) => r == Err(ExtraTemplateDataUnparsable(m))
  {
    match path
    case None => Ok(None)
    case Some(p) =>
      match read(p)
      case Parsed(v) => Ok(Some(v))
      case SyntaxError(m) => Err(ExtraTemplateDataUnparsable(m))
  }

  /** Lines 318-333: the alias mapping, when given, must be valid JSON and a
      JSON object of strings to strings. */
  function LoadAliases(path: Option<string>, read: string -> JsonDoc): (r: Result<Option<map<string, string>>, Failure>)
    ensures path.None? ==> r == Ok(None)
    ensures path.Some? && read(path.value).SyntaxError? ==>
      r == Err(AliasMappingUnparsable(read(path.value).message))
    ensures path.Some? && read(path.value).Parsed? ==>
      var v := read(path.value).value;
      && (r.Ok? <==> IsStringMapping(v))
      && (r.Err? ==> r.error == AliasMappingNotStrings)
      && (r.Ok? ==> r.value.Some? && r.value.value.Keys == KeysOf(v.fields))
      && (r.Ok? ==> forall k | k in r.value.value :: Get(v.fields, k) == Some(Str(r.value.value[k])))
  {
    match path
    case None => Ok(None)
    case Some(p) =>
      match read(p)
      case SyntaxError(m) => Err(AliasMappingUnparsable(m))
      case Parsed(v) =>
        if IsStringMapping(v) then Ok(Some(StringMapping(v))) else Err(AliasMappingNotStrings)
  }

  /** `main` up to the call of `generate`. `isUrl` is the URL test of the
      reference module; `read` stands for opening a resource file and
      `json.load`-ing it. */
  function Main(o: Options, isUrl: string -> bool, read: string -> JsonDoc): Outcome
  {
    if o.version then ShowVersion
    else if o.url.Some? && !isUrl(o.url.value) then Fail(UnsupportedProtocol(o.url.value))
    else match ParseHttpHeaders(o.httpHeaders)
      case Err(item) => Fail(InvalidHttpHeader(item))
      case Ok(headers) =>
        if o.useGenericContainerTypes && o.targetPythonVersion == PY_36 then
          Fail(GenericContainerTypesOnPy36)
        else
          var fieldConstraints := if o.useAnnotated then true else o.fieldConstraints;
          match LoadExtraTemplateData(o.extraTemplateData, read)
          case Err(f) => Fail(f)
          case Ok(extra) =>
            match LoadAliases(o.aliases, read)
            case Err(f) => Fail(f)
            case Ok(aliases) =>
              Handoff(Request(
                source := SourceOf(o),
                targetPythonVersion := o.targetPythonVersion,
                fieldConstraints := fieldConstraints,
                useAnnotated := o.useAnnotated,
                useGenericContainerTypes := o.useGenericContainerTypes,
                httpHeaders := headers,
                httpIgnoreTls := o.httpIgnoreTls,
                extraTemplateData := extra,
                aliases := aliases,
                className := o.className))
  }

  /** The exit reason `main` ends with for an outcome; `engineSucceeded` is
      whether the generator returned normally. A version request calls
      `exit(0)`; a failed check either raises `Error` (status 1 for an
      uncaught exception) or returns `Exit.ERROR`; a generator that raises
      ends in status 1 too; a normal return counts as `OK`. */
  function ExitOf(outcome: Outcome, engineSucceeded: bool): (e: Exit)
    ensures e != KeyboardInterrupt
    ensures e == OK <==> outcome.ShowVersion? || (outcome.Handoff? && engineSucceeded)
  {
    match outcome
    case ShowVersion => OK
    case Fail(_) => ERROR
    case Handoff(_) => if engineSucceeded then OK else ERROR
  }

  /** Why an invocation never reaches `main`'s body: the project file
      cannot be read, or a project-file value has the wrong type for its
      option. */
  datatype SetupError = ProjectFileError(error: LoadError) | WrongOptionType(name: string)

  /** One invocation: load the project table (at import time), resolve every
      option against it, then run `main`. `main` runs exactly when every
      project-file value it reads has its option's type, and then on the
      options merged by the precedence rule; otherwise the invocation stops
      on a project-file entry of the wrong type. */
  function Invoke(args: Args, file: ProjectFile, isUrl: string -> bool, read: string -> JsonDoc): (r: Result<Outcome, SetupError>)
    ensures LoadProjectTable(file).Err? ==> r == Err(ProjectFileError(LoadProjectTable(file).error))
    ensures LoadProjectTable(file).Ok? ==>
      var table := LoadProjectTable(file).value;
      && (r.Ok? <==> FileWellTyped(args, table))
      && (r.Ok? ==> r.value == Main(Merged(args, table), isUrl, read))
      && (r.Err? ==> r.error.WrongOptionType? && r.error.name in table)
  {
    match LoadProjectTable(file)
    case Err(e) => Err(ProjectFileError(e))
    case Ok(table) =>
      ResolveOptionsSucceeds(args, table);
      match ResolveOptions(args, table)
      case Err(name) => Err(WrongOptionType(name))
      case Ok(o) =>
        ResolveOptionsMerges(args, table);
        Ok(Main(o, isUrl, read))
  }
}

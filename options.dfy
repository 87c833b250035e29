/** The options `main` receives and how each gets its value (`__main__.py`
    lines 78-251): the command line overrides the project file, which
    overrides the built-in default (every default is written
    `pyproject.get(name, builtin)`). */
module Options {
  import opened Base
  import opened Json

  /** The target versions `--target-python-version` accepts. */
  datatype PythonVersion = PY_36 | PY_37 | PY_38 | PY_39

  /** The enumeration value of a version, as written on the command line or in the project file. */
  function VersionText(v: PythonVersion): string
  {
    match v
    case PY_36 => "3.6"
    case PY_37 => "3.7"
    case PY_38 => "3.8"
    case PY_39 => "3.9"
  }

  /** The version whose value is `s`, if any: the enumeration's members are
      matched exactly. */
  function VersionFromText(s: string): (r: Option<PythonVersion>)
    ensures r.Some? ==> VersionText(r.value) == s
    ensures r.None? ==> forall v: PythonVersion :: VersionText(v) != s
  {
    if s == "3.6" then Some(PY_36)
    else if s == "3.7" then Some(PY_37)
    else if s == "3.8" then Some(PY_38)
    else if s == "3.9" then Some(PY_39)
    else None
  }

  /** The options `main` reads before it hands over to the generator, as
      they arrive in its parameters. An absent `Option` is Python's `None`. */
  datatype Options = Options(
    input: Option<string>,
    url: Option<string>,
    httpHeaders: Option<seq<string>>,
    httpIgnoreTls: bool,
    fieldConstraints: bool,
    useAnnotated: bool,
    useGenericContainerTypes: bool,
    className: Option<string>,
    extraTemplateData: Option<string>,
    aliases: Option<string>,
    targetPythonVersion: PythonVersion,
    debug: bool,
    version: bool)

  /** The built-in defaults of lines 80-250. */
  const Defaults := Options(
    input := None, url := None, httpHeaders := None, httpIgnoreTls := false,
    fieldConstraints := false, useAnnotated := false, useGenericContainerTypes := false,
    className := None, extraTemplateData := None, aliases := None,
    targetPythonVersion := PY_37, debug := false, version := false)

  /** What the command line gave, option by option; `None` when the option
      was not passed at all. */
  datatype Args = Args(
    input: Option<string>,
    url: Option<string>,
    httpHeaders: Option<seq<string>>,
    httpIgnoreTls: Option<bool>,
    fieldConstraints: Option<bool>,
    useAnnotated: Option<bool>,
    useGenericContainerTypes: Option<bool>,
    className: Option<string>,
    extraTemplateData: Option<string>,
    aliases: Option<string>,
    targetPythonVersion: Option<PythonVersion>,
    debug: Option<bool>,
    version: Option<bool>)

  /** An invocation that passes no option. */
  const NoArgs := Args(None, None, None, None, None, None, None, None, None, None, None, None, None)

  /** The precedence rule for one option. */
  function Resolve<T>(cli: Option<T>, file: Option<T>, builtin: T): T
  {
    if cli.Some? then cli.value else if file.Some? then file.value else builtin
  }

  // Reading a project-file value as an option's type.

  function AsBool(v: Value): Option<bool>
  {
    if v.Bool? then Some(v.b) else None
  }

  function AsText(v: Value): Option<string>
  {
    if v.Str? then Some(v.s) else None
  }

  function AsVersion(v: Value): Option<PythonVersion>
  {
    if v.Str? then VersionFromText(v.s) else None
  }

  function AsTextList(v: Value): (r: Option<seq<string>>)
    ensures r.Some? <==> v.Arr? && forall i | 0 <= i < |v.items| :: v.items[i].Str?
    ensures r.Some? ==>
      (&& v.Arr? && |r.value| == |v.items|
       && forall i | 0 <= i < |v.items| :: v.items[i] == Str(r.value[i]))
  {
    if v.Arr? && forall i | 0 <= i < |v.items| :: v.items[i].Str? then
      Some(seq(|v.items|, i requires 0 <= i < |v.items| => v.items[i].s))
    else None
  }

  /** The project file's value for `name`, read as the option's type; `Err`
      carries the option name when the value has another type. */
  function FileValue<T>(table: map<string, Value>, name: string, decode: Value -> Option<T>): Result<Option<T>, string>
  {
    if name !in table then Ok(None)
    else match decode(table[name])
      case Some(x) => Ok(Some(x))
      case None => Err(name)
  }

  /** One option's value: the command-line value when given (the file value
      is then never read), else the file value, else `builtin`. */
  function Pick<T>(cli: Option<T>, table: map<string, Value>, name: string,
                   decode: Value -> Option<T>, builtin: T): (r: Result<T, string>)
    ensures r.Err? <==> cli.None? && FileValue(table, name, decode).Err?
    ensures r.Err? ==> r.error == name
    ensures r.Ok? && cli.Some? ==> r.value == cli.value
    ensures r.Ok? && cli.None? ==> r.value == Resolve(cli, FileValue(table, name, decode).value, builtin)
  {
    if cli.Some? then Ok(cli.value)
    else
      var file :- FileValue(table, name, decode);
      Ok(Resolve(None, file, builtin))
  }

  /** `Pick` for an option whose default is `None`. */
  function PickOptional<T>(cli: Option<T>, table: map<string, Value>, name: string,
                           decode: Value -> Option<T>): Result<Option<T>, string>
  {
    if cli.Some? then Ok(cli)
    else FileValue(table, name, decode)
  }

  /** Every option of `Options`, resolved in declaration order; the first
      option whose project-file value has the wrong type (and is not
      overridden on the command line) is reported by name. */
  function ResolveOptions(args: Args, table: map<string, Value>): (r: Result<Options, string>)
    ensures r.Err? ==> r.error in table
  {
    var input :- PickOptional(args.input, table, "input", AsText);
    var url :- PickOptional(args.url, table, "url", AsText);
    var httpHeaders :- PickOptional(args.httpHeaders, table, "http_headers", AsTextList);
    var httpIgnoreTls :- Pick(args.httpIgnoreTls, table, "http_ignore_tls", AsBool, false);
    var fieldConstraints :- Pick(args.fieldConstraints, table, "field_constraints", AsBool, false);
    var useAnnotated :- Pick(args.useAnnotated, table, "use_annotated", AsBool, false);
    var useGeneric :- Pick(args.useGenericContainerTypes, table, "use_generic_container_types", AsBool, false);
    var className :- PickOptional(args.className, table, "class_name", AsText);
    var extraTemplateData :- PickOptional(args.extraTemplateData, table, "extra_template_data", AsText);
    var aliases :- PickOptional(args.aliases, table, "aliases", AsText);
    var target :- Pick(args.targetPythonVersion, table, "target_python_version", AsVersion, PY_37);
    var debug :- Pick(args.debug, table, "debug", AsBool, false);
    var version :- Pick(args.version, table, "version", AsBool, false);
    Ok(Options(input, url, httpHeaders, httpIgnoreTls, fieldConstraints, useAnnotated, useGeneric,
               className, extraTemplateData, aliases, target, debug, version))
  }

  /** An option given on the command line, as the value a `None`-default option takes. */
  function Given<T>(o: Option<T>): Option<Option<T>>
  {
    if o.Some? then Some(o) else None
  }

  /** Every project-file value that is read (its option is not on the
      command line) has its option's type. */
  predicate FileWellTyped(args: Args, table: map<string, Value>)
  {
    && (args.input.Some? || FileValue(table, "input", AsText).Ok?)
    && (args.url.Some? || FileValue(table, "url", AsText).Ok?)
    && (args.httpHeaders.Some? || FileValue(table, "http_headers", AsTextList).Ok?)
    && (args.httpIgnoreTls.Some? || FileValue(table, "http_ignore_tls", AsBool).Ok?)
    && (args.fieldConstraints.Some? || FileValue(table, "field_constraints", AsBool).Ok?)
    && (args.useAnnotated.Some? || FileValue(table, "use_annotated", AsBool).Ok?)
    && (args.useGenericContainerTypes.Some? || FileValue(table, "use_generic_container_types", AsBool).Ok?)
    && (args.className.Some? || FileValue(table, "class_name", AsText).Ok?)
    && (args.extraTemplateData.Some? || FileValue(table, "extra_template_data", AsText).Ok?)
    && (args.aliases.Some? || FileValue(table, "aliases", AsText).Ok?)
    && (args.targetPythonVersion.Some? || FileValue(table, "target_python_version", AsVersion).Ok?)
    && (args.debug.Some? || FileValue(table, "debug", AsBool).Ok?)
    && (args.version.Some? || FileValue(table, "version", AsBool).Ok?)
  }

  /** The file's value for an option, present or not, once it is known to
      have the option's type. */
  function FileOr<T>(table: map<string, Value>, name: string, decode: Value -> Option<T>): Option<T>
  {
    var r := FileValue(table, name, decode);
    if r.Ok? then r.value else None
  }

  /** The merged options, option by option, by the precedence rule alone. */
  function Merged(args: Args, table: map<string, Value>): Options
  {
    Options(
      input := Resolve(Given(args.input), Given(FileOr(table, "input", AsText)), None),
      url := Resolve(Given(args.url), Given(FileOr(table, "url", AsText)), None),
      httpHeaders := Resolve(Given(args.httpHeaders), Given(FileOr(table, "http_headers", AsTextList)), None),
      httpIgnoreTls := Resolve(args.httpIgnoreTls, FileOr(table, "http_ignore_tls", AsBool), false),
      fieldConstraints := Resolve(args.fieldConstraints, FileOr(table, "field_constraints", AsBool), false),
      useAnnotated := Resolve(args.useAnnotated, FileOr(table, "use_annotated", AsBool), false),
      useGenericContainerTypes :=
        Resolve(args.useGenericContainerTypes, FileOr(table, "use_generic_container_types", AsBool), false),
      className := Resolve(Given(args.className), Given(FileOr(table, "class_name", AsText)), None),
      extraTemplateData :=
        Resolve(Given(args.extraTemplateData), Given(FileOr(table, "extra_template_data", AsText)), None),
      aliases := Resolve(Given(args.aliases), Given(FileOr(table, "aliases", AsText)), None),
      targetPythonVersion :=
        Resolve(args.targetPythonVersion, FileOr(table, "target_python_version", AsVersion), PY_37),
      debug := Resolve(args.debug, FileOr(table, "debug", AsBool), false),
      version := Resolve(args.version, FileOr(table, "version", AsBool), false))
  }

  /** Resolution succeeds exactly when every file value it reads has the
      right type. */
  lemma ResolveOptionsSucceeds(args: Args, table: map<string, Value>)
    ensures ResolveOptions(args, table).Ok? <==> FileWellTyped(args, table)
  {
  }

  /** `Pick` follows the precedence rule once it succeeds. */
  lemma PickResolves<T>(cli: Option<T>, table: map<string, Value>, name: string,
                        decode: Value -> Option<T>, builtin: T)
    requires Pick(cli, table, name, decode, builtin).Ok?
    ensures Pick(cli, table, name, decode, builtin).value == Resolve(cli, FileOr(table, name, decode), builtin)
  {
  }

  /** `PickOptional` follows the precedence rule, with `None` as the default, once it succeeds. */
  lemma PickOptionalResolves<T>(cli: Option<T>, table: map<string, Value>, name: string,
                                decode: Value -> Option<T>)
    requires PickOptional(cli, table, name, decode).Ok?
    ensures PickOptional(cli, table, name, decode).value == Resolve(Given(cli), Given(FileOr(table, name, decode)), None)
  {
  }

  /** When resolution succeeds, every option follows the precedence rule. */
  lemma ResolveOptionsMerges(args: Args, table: map<string, Value>)
    requires ResolveOptions(args, table).Ok?
    ensures ResolveOptions(args, table).value == Merged(args, table)
  {
    ResolveOptionsSucceeds(args, table);
    PickOptionalResolves(args.input, table, "input", AsText);
    PickOptionalResolves(args.url, table, "url", AsText);
    PickOptionalResolves(args.httpHeaders, table, "http_headers", AsTextList);
    PickResolves(args.httpIgnoreTls, table, "http_ignore_tls", AsBool, false);
    PickResolves(args.fieldConstraints, table, "field_constraints", AsBool, false);
    PickResolves(args.useAnnotated, table, "use_annotated", AsBool, false);
    PickResolves(args.useGenericContainerTypes, table, "use_generic_container_types", AsBool, false);
    PickOptionalResolves(args.className, table, "class_name", AsText);
    PickOptionalResolves(args.extraTemplateData, table, "extra_template_data", AsText);
    PickOptionalResolves(args.aliases, table, "aliases", AsText);
    PickResolves(args.targetPythonVersion, table, "target_python_version", AsVersion, PY_37);
    PickResolves(args.debug, table, "debug", AsBool, false);
    PickResolves(args.version, table, "version", AsBool, false);
  }

  /** With no option passed and no project file, every option is its built-in default. */
  lemma NoSourcesGiveDefaults()
    ensures ResolveOptions(NoArgs, map[]) == Ok(Defaults)
  {
  }

  /** Each option given on the command line takes the command-line value,
      whatever the other options and the project file hold. */
  lemma GivenOptionWins(args: Args, table: map<string, Value>)
    requires ResolveOptions(args, table).Ok?
    ensures var o := ResolveOptions(args, table).value;
      && (args.input.Some? ==> o.input == args.input)
      && (args.url.Some? ==> o.url == args.url)
      && (args.httpHeaders.Some? ==> o.httpHeaders == args.httpHeaders)
      && (args.httpIgnoreTls.Some? ==> o.httpIgnoreTls == args.httpIgnoreTls.value)
      && (args.fieldConstraints.Some? ==> o.fieldConstraints == args.fieldConstraints.value)
      && (args.useAnnotated.Some? ==> o.useAnnotated == args.useAnnotated.value)
      && (args.useGenericContainerTypes.Some? ==> o.useGenericContainerTypes == args.useGenericContainerTypes.value)
      && (args.className.Some? ==> o.className == args.className)
      && (args.extraTemplateData.Some? ==> o.extraTemplateData == args.extraTemplateData)
      && (args.aliases.Some? ==> o.aliases == args.aliases)
      && (args.targetPythonVersion.Some? ==> o.targetPythonVersion == args.targetPythonVersion.value)
      && (args.debug.Some? ==> o.debug == args.debug.value)
      && (args.version.Some? ==> o.version == args.version.value)
  {
    ResolveOptionsMerges(args, table);
  }

  /** When every option is given on the command line, the project file is
      not consulted at all: resolution cannot fail, whatever type the file's
      values have, and gives exactly the command-line values. */
  lemma CommandLineWins(args: Args, table: map<string, Value>)
    requires args.input.Some? && args.url.Some? && args.httpHeaders.Some? && args.httpIgnoreTls.Some?
    requires args.fieldConstraints.Some? && args.useAnnotated.Some? && args.useGenericContainerTypes.Some?
    requires args.className.Some? && args.extraTemplateData.Some? && args.aliases.Some?
    requires args.targetPythonVersion.Some? && args.debug.Some? && args.version.Some?
    ensures ResolveOptions(args, table) == Ok(Options(
      args.input, args.url, args.httpHeaders, args.httpIgnoreTls.value, args.fieldConstraints.value,
      args.useAnnotated.value, args.useGenericContainerTypes.value, args.className,
      args.extraTemplateData, args.aliases, args.targetPythonVersion.value, args.debug.value,
      args.version.value))
  {
  }
}

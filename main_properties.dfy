/** What the checks of `main` guarantee, stated against the ordered list of
    rules they implement (`__main__.py` lines 254-333). */
module MainProperties {
  import opened Base
  import opened Json
  import opened Headers
  import opened Options
  import opened ProjectConfig
  import opened Cli

  /** The first failure of a list of rule outcomes, in list order. */
  function FirstFailure(checks: seq<Option<Failure>>): (r: Option<Failure>)
    ensures r.None? <==> forall i | 0 <= i < |checks| :: checks[i].None?
    ensures r.Some? ==> exists i ::
      (&& 0 <= i < |checks| && checks[i] == r
       && forall j | 0 <= j < i :: checks[j].None?)
  {
    if checks == [] then None
    else if checks[0].Some? then checks[0]
    else
      var r := FirstFailure(checks[1..]);
      if r.Some? then
        var i :| 0 <= i < |checks| - 1 && checks[1..][i] == r && forall j | 0 <= j < i :: checks[1..][j].None?;
        assert checks[i + 1] == r;
        r
      else r
  }

  // The rules, each on its own.

  /** Lines 261-267: a URL must pass the URL test. */
  function UrlRule(o: Options, isUrl: string -> bool): Option<Failure>
  {
    if o.url.Some? && !isUrl(o.url.value) then Some(UnsupportedProtocol(o.url.value)) else None
  }

  /** Lines 279-288: every header item must parse. */
  function HeaderRule(o: Options): Option<Failure>
  {
    var r := ParseHttpHeaders(o.httpHeaders);
    if r.Err? then Some(InvalidHttpHeader(r.error)) else None
  }

  /** Lines 290-298: generic container types cannot target Python 3.6. */
  function GenericContainerRule(o: Options): Option<Failure>
  {
    if o.useGenericContainerTypes && o.targetPythonVersion == PY_36 then Some(GenericContainerTypesOnPy36) else None
  }

  /** Lines 307-316: the extra template data must be valid JSON. */
  function ExtraTemplateDataRule(o: Options, read: string -> JsonDoc): Option<Failure>
  {
    if o.extraTemplateData.Some? && read(o.extraTemplateData.value).SyntaxError? then
      Some(ExtraTemplateDataUnparsable(read(o.extraTemplateData.value).message))
    else None
  }

  /** Lines 318-333: the alias mapping must be valid JSON of strings to strings. */
  function AliasRule(o: Options, read: string -> JsonDoc): Option<Failure>
  {
    if o.aliases.None? then None
    else match read(o.aliases.value)
      case SyntaxError(m) => Some(AliasMappingUnparsable(m))
      case Parsed(v) => if IsStringMapping(v) then None else Some(AliasMappingNotStrings)
  }

  /** The rules in the order `main` applies them. */
  function Rules(o: Options, isUrl: string -> bool, read: string -> JsonDoc): seq<Option<Failure>>
  {
    [UrlRule(o, isUrl), HeaderRule(o), GenericContainerRule(o), ExtraTemplateDataRule(o, read), AliasRule(o, read)]
  }

  /** On the five rules, the first failure is the first `Some` among them. */
  lemma FirstFailureOfRules(o: Options, isUrl: string -> bool, read: string -> JsonDoc)
    ensures var rules := Rules(o, isUrl, read);
      FirstFailure(rules) ==
        if rules[0].Some? then rules[0]
        else if rules[1].Some? then rules[1]
        else if rules[2].Some? then rules[2]
        else if rules[3].Some? then rules[3]
        else rules[4]
  {
    var rules := Rules(o, isUrl, read);
    assert rules[1..][1..][1..][1..][1..] == [];
  }

  /** `main` is the fail-fast evaluation of its rules: unless the version is
      asked for, it fails exactly when some rule fails, with the failure of
      the first rule that does. */
  lemma MainIsFailFast(o: Options, isUrl: string -> bool, read: string -> JsonDoc)
    requires !o.version
    ensures Main(o, isUrl, read).Fail? <==> FirstFailure(Rules(o, isUrl, read)).Some?
    ensures Main(o, isUrl, read).Fail? ==> Main(o, isUrl, read).failure == FirstFailure(Rules(o, isUrl, read)).value
  {
    FirstFailureOfRules(o, isUrl, read);
  }

  /** Unless the version is asked for, the generator is called exactly when
      every rule passes. */
  lemma HandoffIffAllRulesPass(o: Options, isUrl: string -> bool, read: string -> JsonDoc)
    requires !o.version
    ensures Main(o, isUrl, read).Handoff? <==> forall i | 0 <= i < 5 :: Rules(o, isUrl, read)[i].None?
  {
    MainIsFailFast(o, isUrl, read);
  }

  /** Lines 254-258: asking for the version ends the run with `Exit.OK`
      before any other option is looked at. */
  lemma VersionShortCircuits(o: Options, isUrl: string -> bool, read: string -> JsonDoc, engineSucceeded: bool)
    requires o.version
    ensures Main(o, isUrl, read) == ShowVersion
    ensures Code(ExitOf(Main(o, isUrl, read), engineSucceeded)) == 0
  {
  }

  /** Lines 261-267: a URL that fails the URL test raises `Error`, whatever
      the other options hold. */
  lemma UnsupportedUrlRaises(o: Options, isUrl: string -> bool, read: string -> JsonDoc)
    requires !o.version && o.url.Some? && !isUrl(o.url.value)
    ensures Main(o, isUrl, read) == Fail(UnsupportedProtocol(o.url.value))
    ensures Main(o, isUrl, read).failure.Raised()
  {
  }

  /** Lines 278-298: a header item without a colon is reported before the
      generic-container rule is looked at, and it is the first such item. */
  lemma HeaderErrorComesFirst(o: Options, isUrl: string -> bool, read: string -> JsonDoc, k: int)
    requires !o.version && UrlRule(o, isUrl).None?
    requires o.httpHeaders.Some? && 0 <= k < |o.httpHeaders.value| && ':' !in o.httpHeaders.value[k]
    ensures Main(o, isUrl, read).Fail? && Main(o, isUrl, read).failure.InvalidHttpHeader?
    ensures exists i ::
      (&& 0 <= i <= k && o.httpHeaders.value[i] == Main(o, isUrl, read).failure.item
       && ':' !in o.httpHeaders.value[i]
       && forall j | 0 <= j < i :: ':' in o.httpHeaders.value[j])
  {
    var items := o.httpHeaders.value;
    ParseAllColons(items);
    assert ParseAll(items).Err?;
    var i :| && 0 <= i < |items| && items[i] == ParseAll(items).error && ':' !in items[i]
             && forall j | 0 <= j < i :: ':' in items[j];
  }

  /** Lines 290-298: once the URL and header checks pass, the run fails on
      the generic-container rule exactly when generic container types are
      asked for with target version 3.6. */
  lemma GenericContainerRuleIff(o: Options, isUrl: string -> bool, read: string -> JsonDoc)
    requires !o.version && UrlRule(o, isUrl).None? && HeaderRule(o).None?
    ensures Main(o, isUrl, read) == Fail(GenericContainerTypesOnPy36)
      <==> o.useGenericContainerTypes && o.targetPythonVersion == PY_36
  {
  }

  /** Lines 300-302: when the generator is called, `field_constraints` is on
      whenever `use_annotated` is, even against an explicit `false`, and is
      passed through unchanged otherwise. */
  lemma AnnotatedForcesFieldConstraints(o: Options, isUrl: string -> bool, read: string -> JsonDoc)
    requires Main(o, isUrl, read).Handoff?
    ensures o.useAnnotated ==> Main(o, isUrl, read).request.fieldConstraints
    ensures !o.useAnnotated ==> Main(o, isUrl, read).request.fieldConstraints == o.fieldConstraints
    ensures Main(o, isUrl, read).request.useAnnotated == o.useAnnotated
  {
  }

  /** Lines 318-333: once the earlier checks pass, a parsed alias file is
      accepted exactly when it is an object of strings to strings, and the
      mapping handed on is that object's. Otherwise the run ends with
      `Exit.ERROR` and the generator is not called. */
  lemma AliasMappingShape(o: Options, isUrl: string -> bool, read: string -> JsonDoc, engineSucceeded: bool)
    requires !o.version && UrlRule(o, isUrl).None? && HeaderRule(o).None?
    requires GenericContainerRule(o).None? && ExtraTemplateDataRule(o, read).None?
    requires o.aliases.Some? && read(o.aliases.value).Parsed?
    ensures var v := read(o.aliases.value).value;
      && (Main(o, isUrl, read).Handoff? <==> IsStringMapping(v))
      && (!IsStringMapping(v) ==> Main(o, isUrl, read) == Fail(AliasMappingNotStrings))
      && (!IsStringMapping(v) ==> ExitOf(Main(o, isUrl, read), engineSucceeded) == ERROR)
      && (IsStringMapping(v) ==> Main(o, isUrl, read).request.aliases == Some(StringMapping(v)))
  {
    MainIsFailFast(o, isUrl, read);
    var v := read(o.aliases.value).value;
    if IsStringMapping(v) {
      var m := LoadAliases(o.aliases, read).value.value;
      assert m == StringMapping(v);
    }
  }

  /** Lines 307-316: the extra template data is only parsed, never checked
      for shape: any valid JSON document, an array included, is handed on
      as it is. */
  lemma ExtraTemplateDataShapeUnchecked(o: Options, isUrl: string -> bool, read: string -> JsonDoc)
    requires !o.version && UrlRule(o, isUrl).None? && HeaderRule(o).None?
    requires GenericContainerRule(o).None? && AliasRule(o, read).None?
    requires o.extraTemplateData.Some? && read(o.extraTemplateData.value).Parsed?
    ensures Main(o, isUrl, read).Handoff?
    ensures Main(o, isUrl, read).request.extraTemplateData == Some(read(o.extraTemplateData.value).value)
  {
    HandoffIffAllRulesPass(o, isUrl, read);
  }

  /** The alias shape is judged on the loaded dictionary, where a repeated
      key keeps its last value: `{"a": 1, "a": "x"}` is accepted as `{"a": "x"}`. */
  lemma RepeatedAliasKeyLastWins()
    ensures IsStringMapping(Obj([("a", Num("1")), ("a", Str("x"))]))
    ensures StringMapping(Obj([("a", Num("1")), ("a", Str("x"))])) == map["a" := "x"]
  {
    var fields := [("a", Num("1")), ("a", Str("x"))];
    assert fields[..1][..0] == [];
    assert DictOf(fields[..1]) == map["a" := Num("1")];
    assert DictOf(fields) == map["a" := Str("x")];
  }

  /** An alias file holding `{"a": 1}` stops the run with `Exit.ERROR`
      before the generator. */
  lemma NumericAliasRejected(o: Options, isUrl: string -> bool, read: string -> JsonDoc, engineSucceeded: bool)
    requires !o.version && UrlRule(o, isUrl).None? && HeaderRule(o).None?
    requires GenericContainerRule(o).None? && ExtraTemplateDataRule(o, read).None?
    requires o.aliases.Some? && read(o.aliases.value) == Parsed(Obj([("a", Num("1"))]))
    ensures Main(o, isUrl, read) == Fail(AliasMappingNotStrings)
    ensures Code(ExitOf(Main(o, isUrl, read), engineSucceeded)) == 1
  {
    var v := Obj([("a", Num("1"))]);
    assert "a" in DictOf(v.fields) && !DictOf(v.fields)["a"].Str?;
    AliasMappingShape(o, isUrl, read, engineSucceeded);
  }

  /** Every failure ends with `Exit.ERROR` and no request for the generator,
      whatever the generator would have done. */
  lemma FailureExitsWithError(o: Options, isUrl: string -> bool, read: string -> JsonDoc, engineSucceeded: bool)
    requires Main(o, isUrl, read).Fail?
    ensures ExitOf(Main(o, isUrl, read), engineSucceeded) == ERROR
    ensures !o.version
  {
  }

  /** An invocation with no options and no project file calls the generator
      on standard input with every option at its default. */
  lemma DefaultInvocation(isUrl: string -> bool, read: string -> JsonDoc)
    ensures Invoke(NoArgs, Absent, isUrl, read) == Ok(Handoff(Request(
      source := FromStdin, targetPythonVersion := PY_37, fieldConstraints := false,
      useAnnotated := false, useGenericContainerTypes := false, httpHeaders := None,
      httpIgnoreTls := false, extraTemplateData := None, aliases := None, className := None)))
  {
    NoSourcesGiveDefaults();
  }

  /** A project file holding only the section `[tool.datamodel-codegen]` with `entries`. */
  function SectionFile(entries: seq<(string, Value)>): ProjectFile
  {
    Toml([(Tool, Obj([(Section, Obj(entries))]))])
  }

  /** Looking up the key of a one-member object finds its value. */
  lemma GetSingleton(k: string, v: Value)
    ensures Get([(k, v)], k) == Some(v)
  {
    assert DictOf([(k, v)]) == map[k := v] by {
      assert [(k, v)][..0] == [];
    }
  }

  /** End to end: the section's entries, keys normalised, take the place of
      the built-in defaults for every option not on the command line, and
      `main` runs on the merged options. */
  lemma ProjectSectionFeedsMain(args: Args, entries: seq<(string, Value)>,
                                isUrl: string -> bool, read: string -> JsonDoc)
    requires DistinctKeys(entries)
    requires FileWellTyped(args, NormalizeTable(entries))
    ensures Invoke(args, SectionFile(entries), isUrl, read) == Ok(Main(Merged(args, NormalizeTable(entries)), isUrl, read))
  {
    GetSingleton(Tool, Obj([(Section, Obj(entries))]));
    GetSingleton(Section, Obj(entries));
    ResolveOptionsSucceeds(args, NormalizeTable(entries));
    ResolveOptionsMerges(args, NormalizeTable(entries));
  }
}

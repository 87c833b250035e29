# datamodel-code-generator: option resolution and validation

This project models in Dafny what `datamodel-codegen` does before it hands
an invocation to its code generator. The command entry point
`datamodel_code_generator/__main__.py` does four things first:

- It reads the `[tool.datamodel-codegen]` table of the project's
  `pyproject.toml` and turns every `-` in its keys into `_`.
- It gives each option its value. A command-line value wins. Otherwise the
  project-file value is used, and otherwise the built-in default.
- It parses the `--http-headers` items of the form `Name: value`.
- It runs a fixed, fail-fast sequence of checks: version request, URL
  scheme, headers, the generic-container/Python 3.6 rule, the rule that
  `--use-annotated` forces `--field-constraints`, the extra-template-data
  JSON and the alias-mapping JSON. Each outcome is mapped to the `Exit`
  reason `main` ends with.

Everything is modelled as pure functions over values. The source has no loops
that update state. It has two comprehensions (the dictionary of the
project table and the list of parsed headers), one generator expression
(the alias shape test inside `all(...)`), and a straight-line `main` that
returns early or raises.

Modules, one file each:

- `base.dfy` (`Base`): `Option` and `Result`.
- `json.dfy` (`Json`): JSON/TOML values, and the dictionary a list of
  key/value pairs loads into (a repeated key keeps its last value).
- `project_config.dfy` (`ProjectConfig`): key normalisation and the loading
  of the project table.
- `headers.dfy` (`Headers`): `parse_http_header` and the header-list
  comprehension.
- `options.dfy` (`Options`): the options record, the built-in defaults and
  the precedence merge.
- `cli.dfy` (`Cli`): `Exit`, the failures, `main` up to `generate`, and exit
  reasons.
- `main_properties.dfy` (`MainProperties`): the ordered rule list `main`
  implements, and the properties of the pipeline.

Inputs from outside the model are parameters:

- `isUrl: string -> bool` is the URL test imported from the reference module.
- `read: string -> JsonDoc` stands for opening a resource file and running
  `json.load` on it. It returns a parsed value or a syntax error.
- `ProjectFile` is what the file system holds: no file, an unparsable file,
  or a parsed TOML table.
- `engineSucceeded` says whether the generator returned normally.

Two behaviours of the code are worth stating on their own:

- `main` never checks the shape of the extra template data. Any valid JSON
  is handed on (`ExtraTemplateDataShapeUnchecked`).
- The alias check runs on the loaded dict, so a repeated key keeps its last
  value (`RepeatedAliasKeyLastWins`).

## Model

| member | source | states |
|---|---|---|
| `Json.DictOf` | datamodel_code_generator/__main__.py:64-70 | the keys of the dictionary built from a list of pairs are exactly the keys in the list |
| `Json.DictOfLastWins` | datamodel_code_generator/__main__.py:64-70 | each key of that dictionary holds the value of the last pair with that key |
| `Json.DictOfDistinct` | datamodel_code_generator/__main__.py:64-70 | with distinct keys, every pair is in the dictionary unchanged |
| `Json.Get` | datamodel_code_generator/__main__.py:66-68 | `.get(key)` on a loaded table finds a value exactly when the key occurs, and finds the value of its last occurrence |
| `ProjectConfig.NormalizeKey` | datamodel_code_generator/__main__.py:65 | `k.replace('-', '_')` keeps the length, turns every dash into an underscore, keeps every other character, and leaves no dash |
| `ProjectConfig.NormalizeKeyFixes` | datamodel_code_generator/__main__.py:65 | a key with no dash is unchanged |
| `ProjectConfig.NormalizeKeyIdempotent` | datamodel_code_generator/__main__.py:65 | normalising a key twice gives the same result as normalising it once |
| `ProjectConfig.NormalizeKeyConcat` | datamodel_code_generator/__main__.py:65 | normalising a concatenation gives the concatenation of the normalised parts |
| `ProjectConfig.NormalizeDashJoin` | datamodel_code_generator/__main__.py:65 | `a-b` becomes `a_b` when `a` and `b` hold no dash |
| `ProjectConfig.NormalizeTableKeys` | datamodel_code_generator/__main__.py:64-70 | the normalised table's keys are exactly the normalised keys of the section, and none holds a dash |
| `ProjectConfig.NormalizeTableValues` | datamodel_code_generator/__main__.py:64-70 | values are unchanged: each entry holds the value of the last section pair whose key normalises to it |
| `ProjectConfig.NormalizeTableIdempotent` | datamodel_code_generator/__main__.py:64-70 | normalising any listing of an already normalised table gives that table back |
| `ProjectConfig.LoadProjectTable` | datamodel_code_generator/__main__.py:60-72 | no project file, a missing `tool` table or a missing `datamodel-codegen` section gives the empty mapping; a found section loads to its normalised table, with no dashed key; a level that is not a table is an error naming it; an unparsable file, or a key repeated on the way to the section or inside it, is unparsable |
| `Headers.LeadingSpaces` | datamodel_code_generator/__main__.py:282 | counts the leading characters that Python's `isspace` accepts, and stops at the first one it rejects |
| `Headers.IndexOf` | datamodel_code_generator/__main__.py:281 | finds the first occurrence of the character, or reports that there is none |
| `Headers.ParseHeader` | datamodel_code_generator/__main__.py:279-284 | an item fails exactly when it has no colon, and the error carries the item; otherwise the name is the text before the first colon and holds no colon |
| `Headers.ParseHeaderValue` | datamodel_code_generator/__main__.py:281-282 | the value is the text after the first colon, later colons included, less its leading whitespace, and does not start with whitespace |
| `Headers.ParseFormattedHeader` | datamodel_code_generator/__main__.py:279-282 | parsing `name + ": " + value` gives `(name, value)` back whenever the name holds no colon and the value has no leading whitespace |
| `Headers.AuthorizationExample` | datamodel_code_generator/__main__.py:95 | `Authorization: Basic dXNlcjpwYXNz` parses to `("Authorization", "Basic dXNlcjpwYXNz")` |
| `Headers.MalformedExample` | datamodel_code_generator/__main__.py:280-284 | `malformed` is an invalid header |
| `Headers.ParseAll` | datamodel_code_generator/__main__.py:287 | a successful parse has one header per item, in item order; a failure reports the first item that does not parse |
| `Headers.ParseAllColons` | datamodel_code_generator/__main__.py:279-287 | the list parses exactly when every item holds a colon; otherwise the reported item is the first one without a colon |
| `Headers.ParseHttpHeaders` | datamodel_code_generator/__main__.py:286-288 | an absent or empty list gives `None`, not `[]`; otherwise the list parses exactly when every item holds a colon, keeps the list's length and order, or reports the first item without a colon |
| `Options.VersionFromText` | datamodel_code_generator/__main__.py:230-233 | a version text names the member with exactly that value, or no member at all |
| `Options.AsTextList` | datamodel_code_generator/__main__.py:93-96 | a file value is read as a string list exactly when it is an array of strings, and the list keeps its items in order |
| `Options.Pick` | datamodel_code_generator/__main__.py:78-251 | a command-line value is taken as it is and the file is not read; otherwise the file value is used, or the default; a file value of the wrong type is an error that names the option |
| `Options.PickResolves` | datamodel_code_generator/__main__.py:78-251 | a successful `Pick` is the precedence rule: command line, then project file, then built-in default |
| `Options.PickOptionalResolves` | datamodel_code_generator/__main__.py:78-251 | the same rule for the options whose default is `None` |
| `Options.ResolveOptions` | datamodel_code_generator/__main__.py:78-251 | a resolution error names an option whose entry is present in the project table |
| `Options.ResolveOptionsSucceeds` | datamodel_code_generator/__main__.py:78-251 | resolution succeeds exactly when every file value it reads has its option's type |
| `Options.ResolveOptionsMerges` | datamodel_code_generator/__main__.py:78-251 | every resolved option equals the precedence rule applied to that option alone |
| `Options.NoSourcesGiveDefaults` | datamodel_code_generator/__main__.py:80-250 | with no option passed and no project file, every option takes its built-in default |
| `Options.GivenOptionWins` | datamodel_code_generator/__main__.py:78-251 | every option given on the command line takes the command-line value, on a partial command line too, whatever the project file holds |
| `Options.CommandLineWins` | datamodel_code_generator/__main__.py:78-251 | when every option is given on the command line, the file is not consulted: resolution succeeds even when the file's values have the wrong type |
| `Cli.Code` | datamodel_code_generator/__main__.py:41-46 | the exit reasons have the codes 0 to 2 |
| `Cli.SourceOf` | datamodel_code_generator/__main__.py:337 | the generator reads the URL if one is given, else the input path, else standard input |
| `Cli.StringMapping` | datamodel_code_generator/__main__.py:322-328 | the alias mapping has exactly the object's keys, and each maps to that key's string value in the loaded object |
| `Cli.LoadAliases` | datamodel_code_generator/__main__.py:318-333 | no file gives `None`; a syntax error and a value that is not a string-to-string object are two distinct failures; an accepted mapping has the object's keys and string values |
| `Cli.ExitOf` | datamodel_code_generator/__main__.py:254-333 | the `Exit` reason `main` ends with (an `exit(0)` call, a returned `Exit.ERROR`, or a raised exception, which is status 1) is OK exactly for a version request or a generator run that returned normally; it is ERROR for everything else; it is never `KeyboardInterrupt` |
| `Cli.Invoke` | datamodel_code_generator/__main__.py:60-251 | a project file that cannot be loaded stops the invocation before any option is resolved; otherwise `main` runs exactly when every file value it reads has its option's type, and then on the options merged by the precedence rule; if not, the error is `WrongOptionType`, naming a key of the project table |
| `MainProperties.FirstFailure` | datamodel_code_generator/__main__.py:254-333 | fail-fast: there is no failure exactly when every rule passes; otherwise the failure is that of the first failing rule |
| `MainProperties.MainIsFailFast` | datamodel_code_generator/__main__.py:254-333 | unless the version is requested, `main` fails exactly when some rule of the ordered list fails, and reports the first failing rule's failure |
| `MainProperties.HandoffIffAllRulesPass` | datamodel_code_generator/__main__.py:254-336 | unless the version is requested, the generator is called exactly when every rule passes |
| `MainProperties.VersionShortCircuits` | datamodel_code_generator/__main__.py:254-258 | a version request ends with `exit(0)` (`Exit.OK`) before any other option is examined |
| `MainProperties.UnsupportedUrlRaises` | datamodel_code_generator/__main__.py:260-267 | a URL that fails the URL test raises `Error`, whatever the other options hold |
| `MainProperties.HeaderErrorComesFirst` | datamodel_code_generator/__main__.py:278-298 | a header item without a colon is reported before the generic-container rule is checked, and the reported item is the first such item |
| `MainProperties.GenericContainerRuleIff` | datamodel_code_generator/__main__.py:290-298 | after the URL and header checks, the run fails on this rule exactly when generic container types are combined with Python 3.6 |
| `MainProperties.AnnotatedForcesFieldConstraints` | datamodel_code_generator/__main__.py:300-302 | the generator gets field constraints on whenever `use_annotated` is on, even against an explicit `false`; otherwise it gets the option's own value |
| `MainProperties.AliasMappingShape` | datamodel_code_generator/__main__.py:318-333 | a parsed alias file is accepted exactly when it is a string-to-string object, and that mapping is handed on; otherwise `main` returns `Exit.ERROR` and the generator is not called |
| `MainProperties.ExtraTemplateDataShapeUnchecked` | datamodel_code_generator/__main__.py:307-316 | any valid JSON in the extra template data is handed to the generator unchanged |
| `MainProperties.RepeatedAliasKeyLastWins` | datamodel_code_generator/__main__.py:322-328 | `{"a": 1, "a": "x"}` is accepted as the mapping `{"a": "x"}` |
| `MainProperties.NumericAliasRejected` | datamodel_code_generator/__main__.py:318-333 | for an alias file holding `{"a": 1}`, `main` returns `Exit.ERROR` (value 1) before the generator is called |
| `MainProperties.FailureExitsWithError` | datamodel_code_generator/__main__.py:254-333 | every failure ends with `Exit.ERROR` whatever the generator would have done, and none follows a version request |
| `MainProperties.DefaultInvocation` | datamodel_code_generator/__main__.py:80-337 | with no options and no project file, the generator runs on standard input with every option at its default |
| `MainProperties.ProjectSectionFeedsMain` | datamodel_code_generator/__main__.py:60-251 | from end to end, the section's normalised entries replace the defaults of every option not given on the command line, and `main` runs on the merged options |

## Left out

- The SIGINT handler (`__main__.py:49-53`) is process signalling. It exits with `Exit.OK`, not with `Exit.KeyboardInterrupt` (2).
- The `is_supported_in_black` check (`__main__.py:269-276`) depends on the installed formatter's version. Its message also refers to a name, `config`, that is not defined in `main`.
- The preferred locale encoding, logging and `--debug` (`__main__.py:55-57`, `304-305`, `376-389`) are environment and I/O. `debug` is resolved but has no effect in the model.
- `black_find_project_root`, `toml.load` and the `is_file` test (`__main__.py:60-70`) are replaced by the `ProjectFile` input. A key repeated in the top-level table, in `tool` or in the section counts as a malformed file, as TOML forbids it. Repeated keys deeper inside the section's values are not looked for.
- The declarations of the CLI library (`__main__.py:78-250`) are not modelled beyond the precedence rule: path existence, readability, `resolve_path`, and the opening of file options. The library converts textual defaults such as `"true"`; the model does not, and reports a file value of another TOML type as `WrongOptionType`. The exit status of such a usage error is set by the library and is not part of this model.
- Options that no check reads (`output`, `base_class`, `snake_case_field`, and the rest of lines 109-249) follow the same precedence rule. `Pick` models that rule, but these options are not fields of `Options`. The same holds for `input_file_type` and `openapi_scopes` (lines 101-108).
- The members of `PythonVersion` come from the format module, which is not part of this model. The model takes them to be 3.6 to 3.9.
- `is_url` and `urlparse` come from modules outside this model. `isUrl` is a parameter, and a parsed URL is kept as its text.
- `json.load` is the `read` parameter. JSON numbers keep their literal text. The `defaultdict` object hook (default-on-missing-key lookups) is not modelled.
- The process status a returned `Exit` leads to is set by the CLI library that runs `main` (lines 75, 78 and 389), which is not part of this model. The model gives the `Exit` reason `main` ends with. A library that ignores a command's return value would end the three returned failures of lines 316, 325 and 333 with status 0, and a normal run returns `None`, not `Exit.OK`.
- The request holds the extra template data as the parsed JSON document. The generator's view of it as loaded dicts, where a repeated key keeps its last value and a `defaultdict` stands for each object, is not modelled.
- `sys.stdin.read()`, the `generate(...)` call and the rewrapping of `InvalidClassNameError` (`__main__.py:335-380`) are the downstream engine. The model ends at the request handed to it.
- Error messages are modelled as structured failures. Their wording is not modelled.

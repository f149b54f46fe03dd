# Report builder of jambock, in Dafny

jambock turns a data model into a PDF in two stages: a FreeMarker template
expands into HTML, and Flying Saucer lays the HTML out as a PDF. Callers use
the `ReportBuilder`. It holds a template name, a data model of its own, a page
orientation (portrait by default) and a page size (A4 by default). It has
chainable setters and three terminals that hand the name and data model to the
`ReportEngine`. The two geometry setters also write the orientation and size
names into the data model, under the reserved keys `pageOrientation` and
`pageSize`. The terminals refuse a missing or blank template name before the
engine is called. Beside the builder there are two closed enumerations of page
sizes and orientations, and `PageStyleHelper`, which formats CSS `@page` rules
(the `size` and `margin` descriptors of CSS Paged Media Module Level 3).

The model has eight modules, one `.dfy` file each:

- `wrappers.dfy` (`Wrappers`): `Option`, which stands for Java's `null`, and
  `Result`, which stands for a thrown exception.
- `java_strings.dfy` (`JavaStrings`): the two `java.lang.String` operations
  the core depends on. `trim` is two index scans, one from each end, and
  the slice between them. `String.format` covers only the `%s` conversion.
  It yields `None` where Java would throw for a missing argument, and also
  for every other conversion (`%%`, `%n`, `%d`, ...), which the model does
  not cover.
- `page_size.dfy` (`PageSizes`) and `page_orientation.dfy` (`PageOrientations`):
  each enumeration as a datatype, with its constants in declaration order and
  `Value()` for `getValue()`.
- `page_style_helper.dfy` (`PageStyleHelper`): each helper method is a
  function whose body applies `Format` to the source's own template literal.
  Its contract gives the text the template expands to.
- `report_engine.dfy` (`ReportEngines`): the engine as the builder sees it.
  The two collaborator stages together are one function fixed at
  construction, `pipeline`. The engine keeps a ghost log of the requests it
  receives, which exists only to state what the builder sends, and its catch-all turns any failure into a
  `ReportGenerationException` whose message starts with
  `"Failed to generate report: "`.
- `report_builder.dfy` (`ReportBuilders`): the `ReportBuilder` class. Its
  fields are the builder's fields, and its data model is a `map` field that
  the setters reassign. Each setter returns `this`, states its whole new
  state, and ties that state to a pure `Step` function. Lemmas about `Run`, a
  sequence of `Step`s from a new builder, prove the following:
  - last write wins for every data-model key, the reserved keys included;
  - the fields keep their defaults until set;
  - `clearData` erases the reserved entries;
  - the reserved entries agree with the geometry fields unless they were
    cleared or overwritten later.
- `report_scenarios.dfy` (`ReportScenarios`): concrete call sequences on a
  new builder. Two come from the test suite (`GenerateWithoutTemplate`,
  `OrientationInDataModel`). The other four exercise the validation and the
  setters of `ReportBuilder.java`. The three that call a terminal
  (`GenerateWithoutTemplate`, `GenerateWithBlankTemplate`,
  `OrientationInDataModel`) build a new engine. The three that only call
  setters take an engine as a parameter.

`withData(map)` copies the caller's entries into the builder's own map. The
geometry setters write only into that copy. The test at
`src/test/java/dev/avelar/jambock/reports/ReportEngineTest.java:193-197`
expects the caller's own map to gain the reserved keys, but the code does not
do this. The model follows the code: in
`ReportScenarios.OrientationInDataModel` the request the engine receives has
both keys. Maps are values in the model, so the fact that the caller's map
lacks both keys afterwards holds by construction. The model does not tell a
copy from a shared reference (see "## Left out").

## Model

| member | source | states |
|---|---|---|
| `JavaStrings.TrimStartIndex` | src/main/java/dev/avelar/jambock/reports/ReportBuilder.java:155 | the first scan of `trim`: every character it skips is at most a space, and it stops at the end or at a character above the space |
| `JavaStrings.TrimEndIndex` | src/main/java/dev/avelar/jambock/reports/ReportBuilder.java:155 | the second scan of `trim`: every character it drops from the back is at most a space, and it stops at the first scan's index or just after a character above the space |
| `JavaStrings.Trim` | src/main/java/dev/avelar/jambock/reports/ReportBuilder.java:155 | `trim` returns the slice of the input that lies between a prefix and a suffix of characters at most a space, and a non-empty result starts and ends with a character above the space |
| `JavaStrings.TrimEmptyIffAllTrimmable` | src/main/java/dev/avelar/jambock/reports/ReportBuilder.java:155 | `s.trim().isEmpty()` holds exactly when every character of `s` is at most a space |
| `JavaStrings.Format` | src/main/java/dev/avelar/jambock/reports/PageStyleHelper.java:18-21 | `String.format` restricted to `%s`: each `%s` takes the next argument, surplus arguments are ignored, and a template without `%` formats to itself (the error paths are `FormatMissingArgument` and `FormatOtherConversion`) |
| `JavaStrings.FormatLiteral` | src/main/java/dev/avelar/jambock/reports/PageStyleHelper.java:18-21 | `String.format` copies `%`-free literal text to the output unchanged, ahead of the rest's expansion, and throws exactly when the rest does |
| `JavaStrings.FormatMissingArgument` | src/main/java/dev/avelar/jambock/reports/PageStyleHelper.java:18-21 | a `%s` with no argument left gives `None`, where Java throws `MissingFormatArgumentException` |
| `JavaStrings.FormatOtherConversion` | src/main/java/dev/avelar/jambock/reports/PageStyleHelper.java:18-21 | a `%` not followed by `s` (another conversion, or `%` at the end) gives `None`; such templates are outside the model |
| `JavaStrings.FormatConversion` | src/main/java/dev/avelar/jambock/reports/PageStyleHelper.java:18-21 | a `%s` conversion is replaced by the next argument, and the remaining arguments serve the rest of the template |
| `JavaStrings.FormatTemplate` | src/main/java/dev/avelar/jambock/reports/PageStyleHelper.java:44-48 | a template of `%`-free pieces with one argument per `%s` never throws, and it expands to the pieces with the arguments interleaved |
| `PageStyleHelper.PageRuleExpansion` | src/main/java/dev/avelar/jambock/reports/PageStyleHelper.java:17-22 | the format string `"@page { size: %s %s; margin: %s; }"` with three arguments never throws and yields the literal text with the arguments in order |
| `PageStyleHelper.MixedRulesExpansion` | src/main/java/dev/avelar/jambock/reports/PageStyleHelper.java:43-49 | the two concatenated format literals never throw with four arguments, and they yield a `:portrait` rule then a `:landscape` rule, each with the page size and the margins |
| `PageStyleHelper.GeneratePageStyle` | src/main/java/dev/avelar/jambock/reports/PageStyleHelper.java:17-22 | the result is `@page { size: ` + size + space + orientation + `; margin: ` + margins + `; }` |
| `PageStyleHelper.GeneratePageStyleWithDefaultMargin` | src/main/java/dev/avelar/jambock/reports/PageStyleHelper.java:31-33 | the same rule with the margin `2cm` |
| `PageStyleHelper.GenerateMixedOrientationStyles` | src/main/java/dev/avelar/jambock/reports/PageStyleHelper.java:43-49 | a `:portrait` rule then a `:landscape` rule, both with the given size and margins |
| `PageStyleHelper.GenerateMixedOrientationStylesWithDefaultMargin` | src/main/java/dev/avelar/jambock/reports/PageStyleHelper.java:57-59 | the same two rules with the margin `2cm` |
| `PageStyleHelper.PageStyleLayout` | src/main/java/dev/avelar/jambock/reports/PageStyleHelper.java:17-22 | the rule starts with `@page `, ends with `; }`, and is 28 characters longer than its arguments together; each argument sits verbatim at an offset fixed by the lengths of the arguments before it |
| `PageStyleHelper.MixedStylesLayout` | src/main/java/dev/avelar/jambock/reports/PageStyleHelper.java:43-49 | the two rules start with `@page `, end with `; }`, and are 95 characters longer than twice the arguments; the page size and the margins each appear twice, verbatim, at fixed offsets |
| `PageSizes.Values` | src/main/java/dev/avelar/jambock/reports/PageSize.java:10-30 | exactly five constants, pairwise distinct, with `A4` first |
| `PageSizes.ValuesComplete` | src/main/java/dev/avelar/jambock/reports/PageSize.java:10-30 | every page size is among the listed constants |
| `PageSizes.Value` | src/main/java/dev/avelar/jambock/reports/PageSize.java:43-45 | every size name is non-empty and made of ASCII letters and digits |
| `PageSizes.ValueInjective` | src/main/java/dev/avelar/jambock/reports/PageSize.java:10-30 | distinct sizes have distinct names |
| `PageOrientations.Values` | src/main/java/dev/avelar/jambock/reports/PageOrientation.java:10-15 | exactly two distinct constants, with `Portrait` first |
| `PageOrientations.ValuesComplete` | src/main/java/dev/avelar/jambock/reports/PageOrientation.java:10-15 | every orientation is among the listed constants |
| `PageOrientations.Value` | src/main/java/dev/avelar/jambock/reports/PageOrientation.java:28-30 | every orientation name is non-empty lower-case ASCII |
| `PageOrientations.ValueInjective` | src/main/java/dev/avelar/jambock/reports/PageOrientation.java:10-15 | distinct orientations have distinct names, so the reserved entry determines the orientation |
| `ReportEngines.Wrap` | src/main/java/dev/avelar/jambock/reports/ReportEngine.java:83-86 | success passes the PDF through; any stage failure becomes a `ReportGenerationException`, never an `IllegalStateException`, whose message is `Failed to generate report: ` followed by the caught exception's message |
| `ReportEngines.ReportEngine.GenerateReport` | src/main/java/dev/avelar/jambock/reports/ReportEngine.java:68-87 | the engine logs exactly the request it received, and the caller gets the wrapped outcome of both stages |
| `ReportBuilders.Step` | src/main/java/dev/avelar/jambock/reports/ReportBuilder.java:36-96 | one configuration call: a field changes only under its own setter, each geometry setter writes the name of the new value under its reserved key, and only `clearData` removes keys |
| `ReportBuilders.Run` | src/main/java/dev/avelar/jambock/reports/ReportBuilder.java:15-96 | the state of a new builder after a sequence of configuration calls; every key in its data model was written by one of the calls |
| `ReportBuilders.EntryIsLastWrite` | src/main/java/dev/avelar/jambock/reports/ReportBuilder.java:48-96 | after any sequence of configuration calls on a new builder, a key has an entry exactly when the last call touching it wrote it, and the entry is what that call wrote; this covers caller data and the reserved keys in either order |
| `ReportBuilders.UntouchedKeyAbsent` | src/main/java/dev/avelar/jambock/reports/ReportBuilder.java:25-28 | a key no call writes has no entry, so a new builder's default geometry is not in its data model |
| `ReportBuilders.ClearedKeyAbsent` | src/main/java/dev/avelar/jambock/reports/ReportBuilder.java:69-72 | after `clearData`, a key that no later call touches, a reserved key included, has no entry |
| `ReportBuilders.DefaultsPersist` | src/main/java/dev/avelar/jambock/reports/ReportBuilder.java:15-18 | without a `withOrientation` the orientation stays portrait; without a `withPageSize` the size stays A4; without a `withTemplate` the template name stays unset |
| `ReportBuilders.LastOrientationWins` | src/main/java/dev/avelar/jambock/reports/ReportBuilder.java:80-84 | the orientation is the one the last `withOrientation` set |
| `ReportBuilders.LastPageSizeWins` | src/main/java/dev/avelar/jambock/reports/ReportBuilder.java:92-96 | the page size is the one the last `withPageSize` set |
| `ReportBuilders.ReservedOrientationMatchesField` | src/main/java/dev/avelar/jambock/reports/ReportBuilder.java:80-84 | unless a later call cleared or overwrote it, the `pageOrientation` entry holds the name of the orientation the builder holds |
| `ReportBuilders.ReservedPageSizeMatchesField` | src/main/java/dev/avelar/jambock/reports/ReportBuilder.java:92-96 | unless a later call cleared or overwrote it, the `pageSize` entry holds the name of the page size the builder holds |
| `ReportBuilders.ValidateState` | src/main/java/dev/avelar/jambock/reports/ReportBuilder.java:154-158 | generation may proceed exactly when the template name is set and holds a character above the space; otherwise the result is `IllegalStateException` with the source's message |
| `ReportBuilders.Completion` | src/main/java/dev/avelar/jambock/reports/ReportBuilder.java:122-136 | the `void` terminals succeed exactly when the engine did, and they rethrow its exception unchanged |
| `ReportBuilders.ReportBuilder.constructor` | src/main/java/dev/avelar/jambock/reports/ReportBuilder.java:15-28 | a new builder is bound to its engine, has no template name and an empty data model, and is portrait A4 |
| `ReportBuilders.ReportBuilder.WithTemplate` | src/main/java/dev/avelar/jambock/reports/ReportBuilder.java:36-39 | the name is stored as given, with no check; nothing else changes, and `this` is returned |
| `ReportBuilders.ReportBuilder.WithData` | src/main/java/dev/avelar/jambock/reports/ReportBuilder.java:48-51 | `data == old(data)[key := value]`; nothing else changes, and `this` is returned |
| `ReportBuilders.ReportBuilder.WithAllData` | src/main/java/dev/avelar/jambock/reports/ReportBuilder.java:59-62 | the keys are the union of old and given keys, the given entries win on collision, other old entries stay, and nothing else changes |
| `ReportBuilders.ReportBuilder.ClearData` | src/main/java/dev/avelar/jambock/reports/ReportBuilder.java:69-72 | the data model is empty, including the reserved entries; the template name, orientation and size are unchanged |
| `ReportBuilders.ReportBuilder.WithOrientation` | src/main/java/dev/avelar/jambock/reports/ReportBuilder.java:80-84 | the orientation is set and its name is written under `pageOrientation`; nothing else changes |
| `ReportBuilders.ReportBuilder.WithPageSize` | src/main/java/dev/avelar/jambock/reports/ReportBuilder.java:92-96 | the size is set and its name is written under `pageSize`; nothing else changes |
| `ReportBuilders.ReportBuilder.Landscape` | src/main/java/dev/avelar/jambock/reports/ReportBuilder.java:103-105 | the same new state as `withOrientation(LANDSCAPE)`: orientation landscape, `pageOrientation` is `"landscape"` |
| `ReportBuilders.ReportBuilder.Portrait` | src/main/java/dev/avelar/jambock/reports/ReportBuilder.java:112-114 | the same new state as `withOrientation(PORTRAIT)`: orientation portrait, `pageOrientation` is `"portrait"` |
| `ReportBuilders.ReportBuilder.GenerateToStream` | src/main/java/dev/avelar/jambock/reports/ReportBuilder.java:122-125 | a blank or missing name throws `IllegalStateException` and the engine receives nothing; otherwise the engine receives exactly one request with the current name, data model and stream, and its outcome is passed on; the builder is unchanged either way |
| `ReportBuilders.ReportBuilder.GenerateToFile` | src/main/java/dev/avelar/jambock/reports/ReportBuilder.java:133-136 | the same as `GenerateToStream`, with the file as the destination |
| `ReportBuilders.ReportBuilder.GenerateAsBytes` | src/main/java/dev/avelar/jambock/reports/ReportBuilder.java:144-147 | the same guard; on success the PDF bytes are returned, otherwise the engine's exception |
| `ReportScenarios.GenerateWithoutTemplate` | src/test/java/dev/avelar/jambock/reports/ReportEngineTest.java:88-95 | with data but no template, `generateAsBytes` throws `IllegalStateException` and the engine receives no request |
| `ReportScenarios.GenerateWithBlankTemplate` | src/main/java/dev/avelar/jambock/reports/ReportBuilder.java:154-158 | a template name made only of characters at or below U+0020 (space and ASCII control characters) is refused like a missing one; Unicode spaces above U+0020 are not trimmed and would be accepted |
| `ReportScenarios.OrientationInDataModel` | src/test/java/dev/avelar/jambock/reports/ReportEngineTest.java:180-198 | the engine receives the caller's entries plus `pageOrientation = "landscape"` and `pageSize = "A4"`; the caller's map, a value here, lacks both keys |
| `ReportScenarios.LandscapeThenPortrait` | src/main/java/dev/avelar/jambock/reports/ReportBuilder.java:103-114 | after `landscape()` then `portrait()`, the field and the reserved entry both say portrait |
| `ReportScenarios.ClearAfterGeometry` | src/main/java/dev/avelar/jambock/reports/ReportBuilder.java:69-72 | `clearData()` after setting landscape and letter leaves an empty data model, and the fields still say landscape and letter |
| `ReportScenarios.ReservedKeyCollision` | src/main/java/dev/avelar/jambock/reports/ReportBuilder.java:59-96 | caller data under `pageSize` and `withPageSize` overwrite each other, and the later call wins in either order |

## Left out

- Template expansion (FreeMarker) and PDF layout (Flying Saucer) are outside the model. Their combined effect on a request is the engine's `pipeline` function. Whether the PDF starts with `%PDF` is a property of the renderer.
- The FreeMarker configuration (`ReportEngine.java:48-58`), the engine constructors and `getFreemarkerConfig` are left out because they only configure a library this model does not contain.
- The file overload of `generateReport` (`ReportEngine.java:97-104`) is left out in part. The model does not include opening and closing the file, the `IOException` that doing so can throw, or its `"Failed to write report to file: "` message. A `File` sink is passed to `pipeline` like any other sink.
- Streams, flushing and the byte buffer are left out. A terminal's success returns the bytes the sink received, and a failure returns none, so partial output is not represented.
- Logging through SLF4J is left out because it does not affect the result.
- Thread confinement of the builder and shared use of the engine are left out because the model has no concurrency.
- Java `null` is modelled only for the template name (`Option`) and as a data-model value (`Value.Null`). A `null` key, a `null` map passed to `withData`, and `null` passed to `withOrientation` or `withPageSize` are left out. (In Java, the last two would set the field and then throw a `NullPointerException`.)
- `ReportEngines.Error` keeps only the message of a `ReportGenerationException`. The caught exception that `ReportEngine.java:85` attaches as its cause is not represented. `Outcome.Failed` carries the caught exception's message as already rendered into text, so a `null` message appears there as `"null"`.
- `JavaStrings.Format` models `String.format` for `%s` conversions only. It does not render `null` arguments as `"null"`. The helper's templates use no other conversion, and its callers pass strings.
- Data-model values are opaque (`Value.Other`). HashMap iteration order is not modelled because it does not affect the content of the map.
- Maps are values in the model, so copying versus sharing a map is not represented. `withData(map)` copies the caller's entries into the builder's own `HashMap` (`ReportBuilder.java:27`, `ReportBuilder.java:60`). A builder that stored the caller's reference instead, so that the geometry setters wrote into the caller's map, would have the same model.
- The engine receives the builder's map as a value. A collaborator that mutated that map in place during generation would not be represented.
- The example programs in the package `dev.avelar.jambock.examples` and the build script are left out. They are drivers and configuration, not part of the core.

# bddreporting in Dafny

bddreporting is a set of decorators for the hooks and step definitions of
the behave test runner. They turn a run of Gherkin scenarios into written
reports. While a scenario runs, each step decorated with `report` renders
its narrative and appends it to the scenario's log buffer. The narrative is
the step's Gherkin doc string (rendered with Jinja2) and a Mako template,
taken from the decorator, a file, the step's docstring or the feature
file's own step line.

After the scenario, the `after_scenario` wrapper adds a rendered header and
then does one of two things with the text:
- it exports it through `write_text`, which converts it with pandoc or a
  custom converter into every format the tags or the default formats
  select, or writes a Markdown fallback file;
- or it appends it to the feature's buffer. `before_feature` seeds that
  buffer with a header and `after_feature` writes it.

The settings live in a process-wide store. Each read validates the store
against a JSON schema and exits the process when the store does not
satisfy it. `report`, `after_scenario` and `before_feature` read it
themselves. `after_feature` never reads it; only the `write_text` call it
makes does, and only when the feature's buffer is non-empty.

The model has one module per source concern:
- `Strings`: the Python `str` operations used.
- `Paths`: `posixpath` joins, base names and directory names.
- `Values`: Python values, truthiness and exceptions.
- `Externals`: template engines, YAML, the file system and pandoc, as
  uninterpreted functions.
- `Settings`: `config.py`, with the schema as a predicate and `Config` as a
  class.
- `Extraction`: `extract_multiline_string`, as a loop method proved against
  a specification function.
- `FrontMatter`: `parse_front_matter`.
- `Writer`: `write_text`'s format resolution and its plan of file-system
  effects.
- `Behave`: the runner's records and its mutable context.
- `Report`, `AfterScenario`, `BeforeFeature` and `AfterFeature`: the
  decorators.

Each decorator is a method on the context that is proved equal to a
specification function. Lemmas then state what the source promises about
that function, including what the three feature and scenario wrappers do
together.

Where the code and its description disagree, the model follows the code:
- A failed Jinja2 render raises instead of yielding `""`. The handler
  calls the misspelt `loggig` (`bddreporting/utils.py:51`), which raises
  NameError.
- In the Mako render arguments, a step keyword `id` overrides the automatic
  step id (`bddreporting/report.py:75`).
- The working directory is restored only when pandoc returns normally
  (`bddreporting/utils.py:97-103`).
- Of a line holding two delimiters, only the text after the first is kept.
  The second delimiter does not close the block
  (`bddreporting/utils.py:18-20`).
- `export_scenario` defaults to `True` in `after_scenario` and to `False`
  in `before_feature`.
- `before_feature` renders the feature header with only the date and the
  time, so the default header's `{{feature}}` renders with no value.

## Model

| member | source | states |
|---|---|---|
| Strings.Find | bddreporting/utils.py:135 | `s.find(pat, start)` is -1 only when `pat` occurs nowhere from `start`; otherwise it is the least index from `start` where `pat` occurs |
| Strings.ContainsIff | bddreporting/utils.py:18 | `'"""' in line` holds exactly when the delimiter occurs at some index of the line |
| Strings.StripTrims | bddreporting/utils.py:30 | `strip()` keeps the infix that starts at the first non-whitespace character and ends at the last one; everything outside it is whitespace |
| Strings.LeadingSpaceSpans | bddreporting/utils.py:30 | the leading run that `strip()` removes is all whitespace and is followed by a non-whitespace character |
| Strings.TrailingSpaceSpans | bddreporting/utils.py:30 | the trailing run that `strip()` removes is all whitespace and is preceded by a non-whitespace character |
| Strings.Lower | bddreporting/utils.py:69 | `lower()` keeps the length and maps each character by the (ASCII) lower-case mapping |
| Strings.LowerAll | bddreporting/utils.py:69 | the lower-cased tags are the tags, one by one, in lower case |
| Strings.Words | bddreporting/report.py:65 | `split()` yields only non-empty, whitespace-free words |
| Strings.WordsOfJoin | bddreporting/report.py:65-66 | splitting on whitespace undoes joining words with single spaces |
| Strings.WordsAfterSpaces | bddreporting/report.py:65 | leading whitespace of any length does not change the words of `split()` |
| Strings.WordsOfLayout | bddreporting/report.py:65 | `split()` recovers exactly the words of any layout: leading whitespace, then the words, with a non-empty whitespace run between each two and any whitespace after the last |
| Strings.SplitLines | bddreporting/report.py:64 | `splitlines()` yields lines with no line-break character in them |
| Strings.LineBreaks | bddreporting/report.py:64 | the line breaks `splitlines()` drops, one per line: `\r\n` or one line-break character, or nothing after a last line with no break |
| Strings.SplitLinesRoundTrip | bddreporting/report.py:64 | there is one dropped break per line, and putting each line's break back after it gives the original text |
| Strings.BreakLength | bddreporting/report.py:64 | a line break (`\r\n` counting as one) starts at an index exactly when the character there is a line-break character |
| Strings.LineEnd | bddreporting/report.py:64 | a line runs up to the first line-break character or the end of the text |
| Paths.LastSlash | bddreporting/before_feature.py:12 | the index of the last `/`, or -1 when there is none |
| Paths.Dirname | bddreporting/utils.py:57 | `os.path.dirname` is a prefix of the path; it is empty exactly when the path has no `/`; it ends in `/` only when it is all slashes (the root) |
| Paths.Join | bddreporting/utils.py:64 | `os.path.join` of two parts: an absolute second part replaces the first; otherwise the result starts with the first part, ends with the second, and holds at most one `/` added between them |
| Paths.Basename | bddreporting/utils.py:60 | `os.path.basename` holds no `/`; it is the end of the path that follows the last `/`, or the whole path when there is none |
| Paths.BasenameOfJoin | bddreporting/report.py:63 | the base name of a directory joined with a slash-free name is that name |
| Paths.DirnameOfJoin | bddreporting/utils.py:57 | the directory name of a directory joined with a slash-free name is that directory, when the directory has no trailing slash |
| Settings.Config.constructor | bddreporting/config.py:6-38 | the store starts with the ten default settings and five default formats |
| Settings.ValidShape | bddreporting/config.py:40-104 | settings that satisfy the schema hold every required key and no undeclared one; `formats` is a dict, `default_formats` a list, `report_dir` a string, and the two switches booleans |
| Settings.Config.Update | bddreporting/config.py:106-109 | the keyword arguments are merged into the store, overriding and keeping the other keys; it exits exactly when the merged store breaks the schema, and the merge stays stored |
| Settings.Config.Get | bddreporting/config.py:111-114 | it returns exactly when the store is valid (exiting with the validation message otherwise); the value is the stored one, or the default when the key is absent |
| Settings.Config.All | bddreporting/config.py:116-119 | it returns the whole store exactly when the store is valid |
| Settings.InitialSettingsValid | bddreporting/config.py:6-104 | the default settings satisfy the schema |
| Settings.DefaultFormatsOk | bddreporting/config.py:16-37 | the default `formats` satisfy the `formats` schema entry |
| Settings.UpdateValidIff | bddreporting/config.py:94-108 | from valid settings, a merge is valid exactly when every merged key is declared and its value has the declared type |
| Settings.UpdateOneValid | bddreporting/config.py:94-109 | storing one value the schema accepts keeps valid settings valid |
| Settings.UndeclaredKeyInvalid | bddreporting/config.py:103 | a key the schema does not declare makes the settings invalid (`additionalProperties` is false) |
| Settings.MissingRequiredInvalid | bddreporting/config.py:94-102 | removing a required key makes the settings invalid |
| Settings.GetRequiredIgnoresDefault | bddreporting/config.py:94-102 | in valid settings a required key's default is never used |
| Settings.DefaultFormatsNeedNotBeKnown | bddreporting/config.py:75-82 | the schema does not tie `default_formats` to the keys of `formats`, though its description says so |
| Settings.PatternAcceptsTrailingNewline | bddreporting/config.py:79 | the name pattern accepts a name ending in one newline and rejects `-` and the empty name |
| Settings.FormatEntries | bddreporting/config.py:83-91 | in valid settings `formats` is a dict whose pattern-matching entries are dicts |
| Settings.NonMatchingFormatUnconstrained | bddreporting/config.py:86-91 | a `formats` entry whose name does not match the pattern may be any value |
| Settings.DefaultFormatItems | bddreporting/config.py:75-80 | in valid settings every default format is a string matching the name pattern |
| Extraction.SplitAtDelimiter | bddreporting/utils.py:20-23 | `split('"""', 1)` loses nothing, and the part before the delimiter holds none |
| Extraction.FirstDelimiterSpec | bddreporting/utils.py:16-24 | the delimiter line found from an index is one with no delimiter line before it; none is found only when no line from there holds one |
| Extraction.ExtractMultilineString | bddreporting/utils.py:11-30 | the loop returns the specification `Extracted`: the pieces between the two delimiter lines, joined by newlines and stripped |
| Extraction.NoDelimiterGivesEmpty | bddreporting/utils.py:12-30 | a description with no delimiter line, or none at all, gives `""` |
| Extraction.OneDelimiterCollectsRest | bddreporting/utils.py:18-27 | with one delimiter line, everything after its delimiter to the end is collected |
| Extraction.TwoDelimitersBound | bddreporting/utils.py:18-24 | with two delimiter lines, the text after the first delimiter, the lines between, and the text before the second delimiter are collected |
| Extraction.LinesAfterClosingIgnored | bddreporting/utils.py:24 | lines after the closing delimiter never change the result |
| Extraction.SameLineDelimiterDoesNotClose | bddreporting/utils.py:18-20 | on an opening line whose text after the first delimiter holds another, that whole text, second delimiter included, is the first piece, and a following line without a delimiter is still collected |
| FrontMatter.ParseFrontMatter | bddreporting/utils.py:132-145 | no front matter without an opening `---`, nor without a closing `---` at index 3 or later |
| FrontMatter.ParseComposed | bddreporting/utils.py:134-141 | a fenced block followed by any body parses to the YAML value of the stripped block |
| FrontMatter.ExtraArgsOverride | bddreporting/utils.py:94-95 | front matter replaces `extra_args` exactly when it is a dict holding `extra_args`; it is left alone exactly when it is falsy, is a dict without the key, or is a string or list not containing it |
| Writer.FilterAppend | bddreporting/utils.py:73 | filtering a concatenation is concatenating the filtered parts |
| Writer.FilterMembers | bddreporting/utils.py:73 | an element is kept by a filter exactly when it is in the input and satisfies the filter |
| Writer.KnownDefaults | bddreporting/utils.py:76-79 | every default format taken is a configured format |
| Writer.KnownDefaultsAppend | bddreporting/utils.py:77-79 | the defaults are taken in order, one by one |
| Writer.KnownDefaultsCount | bddreporting/utils.py:77-79 | a default is taken as often as it is listed when it is configured, never otherwise |
| Writer.TagSelectedMembers | bddreporting/utils.py:69-73 | a format is tag-selected exactly when it is configured and equals some tag ignoring case |
| Writer.TagSelectedKeepsOrder | bddreporting/utils.py:73 | tag-selected formats keep the configuration order |
| Writer.ResolvedFormatsAreKnown | bddreporting/utils.py:72-79 | the tag-selected formats are used when there are any, the known defaults otherwise, and all are configured |
| Writer.ResolveFormats | bddreporting/utils.py:72-79 | no format is resolved exactly when no configured format is named by a tag and no listed default is configured |
| Writer.FeatureDir | bddreporting/utils.py:57-58 | a feature file named without a directory has the working directory as its directory |
| Writer.ReportDirectory | bddreporting/utils.py:62-64 | an absolute rendered `report_dir` is the report directory itself; a relative one is appended to the feature's directory |
| Writer.UpperCaseTagSelectsFormat | bddreporting/utils.py:69-73 | a tag selects a format regardless of case |
| Writer.DefaultsApplyWithoutTag | bddreporting/utils.py:75-79 | with no selecting tag the known default formats apply |
| Writer.SelectFormats | bddreporting/utils.py:69-79 | the loop computes the resolved formats |
| Writer.OutputsAppend | bddreporting/utils.py:81-122 | the outputs of a sequence of steps are those of each part, in order |
| Writer.ConvertOne | bddreporting/utils.py:81-122 | a format converts only when the base name renders and the format is a configured dict; a raising format does nothing else; no format writes or creates; the directory stays, or is the feature's after a failed pandoc run |
| Writer.ConvertOneOutput | bddreporting/utils.py:82-100 | a converted format produces exactly its output path; pandoc gets the format's `to` (the name by default) and the extra arguments, or the custom module is called |
| Writer.ConvertAllWritesNoFallback | bddreporting/utils.py:81-122 | converting formats never writes the fallback file or creates a directory |
| Writer.ConvertAllOutputs | bddreporting/utils.py:81-122 | when every format converts, the outputs are the formats' output paths, in order |
| Writer.FeatureDirSticks | bddreporting/utils.py:97-103 | in the feature's directory, converting keeps it there |
| Writer.CwdAfterConversions | bddreporting/utils.py:97-103 | after converting, the directory is the feature's when some pandoc run failed, and the starting one otherwise |
| Writer.ConvertFormats | bddreporting/utils.py:81-122 | the loop computes the specification `ConvertAll` |
| Writer.WriteText | bddreporting/utils.py:54-130 | the method's effects, status and final directory are the specification `WritePlan` |
| Writer.EmitFallback | bddreporting/utils.py:124-130 | a plan writes a file exactly when no format is resolved, and the fallback is its last effect |
| Writer.Emit | bddreporting/utils.py:66-130 | the part of `write_text` after the report directory is known never exits the process |
| Writer.WritePlan | bddreporting/utils.py:54-64 | an empty text does nothing and finishes in place; the write exits exactly when the text is non-empty and the settings are invalid, and then with the validation message, no effect and no move |
| Writer.FallbackIff | bddreporting/utils.py:54-130 | the fallback `<scenario>.md`, holding the stripped text, is written exactly when the text is non-empty, the settings are valid, the report directory renders and no format is resolved |
| Writer.EmitOutputs | bddreporting/utils.py:66-122 | a finished plan first creates the directory and outputs every resolved format's path in order |
| Writer.WriteOutputs | bddreporting/utils.py:54-122 | a finished `write_text` with resolved formats creates the report directory first and outputs every format's path in order |
| Writer.EmitCwd | bddreporting/utils.py:97-103 | a plan ends in the feature's directory when a pandoc run failed, and in the starting one otherwise |
| Writer.WriteLeavesCwd | bddreporting/utils.py:54-130 | `write_text` leaves the working directory changed exactly when some pandoc run failed |
| Writer.NextWriteResolvedInFeatureDir | bddreporting/utils.py:57-103 | after a write whose pandoc run failed, the next write resolves its feature file's directory against the first feature's directory, not against where the first write started; after any other write, against that starting directory |
| Writer.InitialSettingsFormats | bddreporting/config.py:15 | with the default settings and no tags, a report is made in `docx` and `txt` |
| Writer.ConversionRaises | bddreporting/utils.py:66-122 | when the first conversion raises, the write leaves only the created report directory behind, raises that exception and stays in the same directory |
| Writer.OnlyFormatSelected | bddreporting/utils.py:69-73 | a tag naming the only configured format selects it |
| Writer.NonDictConversionRaises | bddreporting/utils.py:84-86 | converting to a format whose descriptor is not a dict raises AttributeError before any effect |
| Writer.NonDictFormatRaises | bddreporting/utils.py:84-86 | a tag selecting a `formats` entry that is not a dict makes `write_text` raise AttributeError right after creating the report directory |
| Behave.Context.constructor | bddreporting/report.py:82-83 | a fresh context has no log, no feature buffer, no feature directory and no report, and is in the given working directory |
| Report.FirstUntested | bddreporting/report.py:61-62 | the step found is the first one still untested; none is found only when every step was tested |
| Report.FirstUntestedAt | bddreporting/report.py:61-67 | an untested step after only tested ones is the step found |
| Report.NoneUntested | bddreporting/report.py:61-67 | when every step was tested none is found |
| Report.PyIndex | bddreporting/report.py:65 | Python indexing: non-negative indices from the front, negative ones from the back, IndexError outside |
| Report.DropFirstWordOf | bddreporting/report.py:65-66 | a step line laid out as any indentation, the keyword and its words, with non-empty whitespace between words and any whitespace at the end, yields exactly those words, single-spaced |
| Report.StepsTemplate | bddreporting/report.py:60-67 | the loop yields the specification `StepsSource`: the first untested step's line without its keyword, `""` when there is none |
| Report.TemplateSourcePriority | bddreporting/report.py:47-67 | the decorator's template wins over the filename, the filename over the docstring, and the steps are read only when none is given |
| Report.MissingFilePlaceholder | bddreporting/report.py:50-55 | a missing template file gives the placeholder naming its full path |
| Report.FirstUntestedAfterTested | bddreporting/report.py:61-62 | tested steps before the others shift the found index and change nothing else |
| Report.StepsSourceFirstUntested | bddreporting/report.py:61-67 | the template text comes from the first untested step, whatever follows it |
| Report.RenderArgs | bddreporting/report.py:72-77 | the render arguments have exactly the keys `id`, the keyword arguments, and `report` when the report is a non-empty dict; the keyword `id` overrides the step id; the report overrides a keyword `report` |
| Report.GherkinPart | bddreporting/report.py:35-44 | the doc string contributes only when processing is on and it is a non-empty string; it then contributes its Jinja2 rendering (on the scenario, feature, date and time) followed by a blank line, or nothing when the rendering raises |
| Report.TemplatePart | bddreporting/report.py:69-79 | an error choosing the template propagates; an empty template contributes nothing; a non-empty one raises AttributeError without a feature directory, and otherwise contributes its Mako rendering followed by a newline, or raises TemplateError when the rendering raises |
| Report.DocText | bddreporting/report.py:32-79 | the narrative succeeds exactly when the template part does, and is then the doc-string part followed by the template part; otherwise it raises the template part's error |
| Report.GherkinErrorSwallowed | bddreporting/report.py:35-44 | a doc string whose Jinja2 rendering raises is dropped: the narrative is the template part alone, and the exception does not end the call |
| Report.RenderDocString | bddreporting/report.py:35-44 | the method computes the specification `GherkinPart` |
| Report.RenderTemplate | bddreporting/report.py:69-79 | the method computes the specification `TemplatePart` |
| Report.ComposeDocText | bddreporting/report.py:32-79 | the method computes the specification `DocText` |
| Report.AppendLog | bddreporting/report.py:81-84 | the log changes exactly when the text is non-empty; it then gains the text and a newline at its end and keeps everything before |
| Report.AppendLogTwice | bddreporting/report.py:81-84 | two appends equal one append of both texts joined by a newline |
| Report.ChooseTemplate | bddreporting/report.py:47-67 | the method yields the specification `TemplateSource` |
| Report.DocStringToLog | bddreporting/report.py:31-84 | the method's log and outcome are the specifications `DocLog` and `DocOutcome`; nothing else in the context changes, the working directory included |
| Report.DocOutcome | bddreporting/report.py:31-84 | `doc_string_to_log` exits exactly when the settings are invalid, and when it returns it returns `None` |
| Report.DocLog | bddreporting/report.py:81-84 | the log changes only when `doc_string_to_log` returns, and it only grows at its end |
| Report.ReportOutcome | bddreporting/report.py:12-29 | the wrapper exits exactly when the settings are invalid; behind a closed gate it returns the step's result, `None` when the step raised; behind an open gate it raises exactly when `doc_string_to_log` raises, with that same exception and never the step's own, and otherwise returns the step's result |
| Report.StepExceptionSwallowed | bddreporting/report.py:16-21 | a step that raises is treated as one that returned `None`: the wrapper ends the same way and logs the same text |
| Report.DocTextIgnoresOutcome | bddreporting/report.py:32-79 | the narrative does not depend on how the step ended |
| Report.ReportLog | bddreporting/report.py:24-26 | the log is untouched when the settings are invalid or the gate is closed, and it only grows at its end |
| Report.ReportStep | bddreporting/report.py:12-29 | the step is always called; the log and outcome are the specifications `ReportLog` and `ReportOutcome` |
| AfterScenario.ZipToMapPairs | bddreporting/after_scenario.py:29 | `dict(zip(headings, cells))` has exactly the headings that have a cell as keys, and each maps to the cell of its last occurrence |
| AfterScenario.DistinctHeadings | bddreporting/after_scenario.py:29 | with distinct headings every heading maps to its own cell |
| AfterScenario.OutlineParams | bddreporting/after_scenario.py:26-29 | the outline parameters have as keys the scenario names plus, when there is a row with cells, the row's headings; a heading maps to its cell, and every other name keeps its value |
| AfterScenario.Header | bddreporting/after_scenario.py:19-22 | the header is the configured `scenario_header` when truthy, else the text extracted from the description |
| AfterScenario.HeaderText | bddreporting/after_scenario.py:36-38 | a falsy header contributes nothing, a non-empty string contributes itself and a blank line, and any other truthy value raises TypeError |
| AfterScenario.AfterScenarioSpec | bddreporting/after_scenario.py:6-55 | the wrapper exits with the validation message when the settings are invalid; behind a closed gate it returns `None` and changes nothing; under valid settings it exits only with the halt message, and does so when the text composes, its write finishes, the scenario failed and halting is on; the wrapped hook is called exactly when the settings are valid, the gate is open, the text composes, the write of it (if one is made) finishes, and there is no halt, and its outcome is then forwarded; the feature buffer only grows; at most one write is made, the first event, with a non-empty text under the scenario's own name; the working directory changes only to the one that write leaves |
| AfterScenario.Routed | bddreporting/after_scenario.py:44-55 | once the gate is passed: a text that fails to compose raises that error; an exit is only the halt, and a write that finishes on a failed scenario with halting on does exit with the halt message; the wrapped hook is called exactly when the text composes, its write (if made) finishes and there is no halt, and its outcome is then forwarded; the buffer only grows; a write comes first, carries a non-empty text under the scenario's name, and is the only thing that moves the working directory |
| AfterScenario.AfterWrite | bddreporting/after_scenario.py:45-55 | after a write: a writer that raises or exits ends the wrapper with that exception or exit; a finished write then halts with the halt message on a failed scenario with halting on, and otherwise calls the wrapped hook and forwards its outcome; the directory is the one the write leaves |
| AfterScenario.Finish | bddreporting/after_scenario.py:51-55 | with halting on and a failed scenario the run exits with the halt message and the wrapped hook is not called; in every other case the hook is called and its outcome is forwarded; the feature buffer and working directory are unchanged |
| AfterScenario.RenderedHeader | bddreporting/after_scenario.py:31-34 | a string header is replaced by its Jinja2 rendering, and kept as it was when the rendering raises; a header that is not a string is kept |
| AfterScenario.ComposeText | bddreporting/after_scenario.py:17-42 | the method composes the specification `ScenarioText` |
| AfterScenario.RouteText | bddreporting/after_scenario.py:44-55 | the method routes the text, ends on a write that raises, halts or calls the hook as the specification `Routed` says, leaving the working directory the write leaves; the log, report and feature directory are untouched |
| AfterScenario.WriteScenario | bddreporting/after_scenario.py:45-46 | the method records the `write_text` call in the trace and ends with the status and directory of `WritePlan` |
| AfterScenario.WriteAndFinish | bddreporting/after_scenario.py:45-55 | the method writes the text and continues as the specification `AfterWrite` says |
| AfterScenario.FinishHook | bddreporting/after_scenario.py:51-55 | the method halts or calls the hook as the specification `Finish` says, changing nothing else |
| AfterScenario.AfterScenarioHook | bddreporting/after_scenario.py:6-55 | the method's outcome, trace, feature buffer and working directory are the specification `AfterScenarioSpec`; nothing else in the context changes |
| AfterScenario.ScenarioLeavesCwd | bddreporting/after_scenario.py:44-46 | the wrapper leaves the working directory where it started, or in the scenario's feature directory when a pandoc run of its write failed |
| AfterScenario.TextRouting | bddreporting/after_scenario.py:44-49 | a non-empty text is written under the scenario's name when exported, and appended to an existing feature buffer otherwise, with no write |
| AfterScenario.ComposedText | bddreporting/after_scenario.py:31-42 | the text is the rendered header, a blank line and the log for a non-empty header string; only the log for a falsy header; TypeError otherwise |
| AfterScenario.TrueHeaderRaises | bddreporting/after_scenario.py:19-38 | `scenario_header: true` passes the schema, yet the wrapper raises before calling the hook |
| AfterScenario.GateClosedSkipsHandler | bddreporting/after_scenario.py:11-14 | a closed gate returns `None` with no write and no hook call |
| AfterScenario.RaisingWriteEndsHook | bddreporting/after_scenario.py:44-55 | a write of the scenario's text that raises ends the wrapper with that exception after the write: no halt and no hook call, whatever the scenario's outcome |
| AfterScenario.NonDictSettingsValid | bddreporting/config.py:83-104 | settings with scenarios exported and a `formats` entry `x-y` that is not a dict satisfy the schema, since its pattern does not cover `x-y` |
| AfterScenario.NonDictFormatSkipsHandler | bddreporting/utils.py:84-86 | under those settings a scenario tagged `x-y` makes the writer raise AttributeError on the entry's `get`, so the wrapped hook is not called |
| BeforeFeature.FeatureSeed | bddreporting/before_feature.py:20-32 | no seed when scenarios are exported; a raising render raises; otherwise the rendered header and a blank line when non-empty, no seed when empty |
| BeforeFeature.FeatureHeader | bddreporting/before_feature.py:22-26 | a truthy `feature_header` setting is the header; otherwise the header is the multi-line string extracted from the feature's description |
| BeforeFeature.BeforeFeatureSpec | bddreporting/before_feature.py:9-35 | it exits with the validation message when the settings are invalid; the hook is called exactly when the settings are valid, the gate is open and the seed does not raise; the buffer changes only to a seed |
| BeforeFeature.SeedAndCall | bddreporting/before_feature.py:20-35 | once the gate is passed, the method raises on a raising seed, and otherwise replaces the buffer by the seed when there is one and calls the hook |
| BeforeFeature.ComposeSeed | bddreporting/before_feature.py:20-32 | the method computes the specification `FeatureSeed` |
| BeforeFeature.BeforeFeatureHook | bddreporting/before_feature.py:9-35 | the feature directory is recorded however the wrapper ends, resolved against the current working directory; the outcome, trace and buffer are the specification `BeforeFeatureSpec` |
| BeforeFeature.ExportingLeavesBuffer | bddreporting/before_feature.py:20 | when scenarios are exported the feature buffer is left as it was |
| BeforeFeature.SeedReplacesBuffer | bddreporting/before_feature.py:31-32 | a seed replaces the buffer; without one the buffer is kept |
| BeforeFeature.DefaultSettingsSeed | bddreporting/before_feature.py:20-32 | with the default settings the buffer is seeded: the header is `# {{feature}}`, a rendering that raises is a template error, a non-empty rendering on the date and time is followed by a blank line, and an empty one seeds nothing |
| AfterFeature.FeatureWrite | bddreporting/after_feature.py:6-7 | the feature buffer is written, under the scenario name `_unknown_`, exactly when it exists and is non-empty |
| AfterFeature.AfterFeatureSpec | bddreporting/after_feature.py:3-10 | the wrapper applies no gate: it writes the buffer as `FeatureWrite` says, and calls the hook and forwards its outcome exactly when no write is made or the write finishes; a write that raises or exits ends it; the directory is the one the write leaves |
| AfterFeature.WriteAndCall | bddreporting/after_feature.py:6-9 | the method writes the buffer and continues as the specification `FeatureEnd` says |
| AfterFeature.InvalidSettingsExitOnWrite | bddreporting/after_feature.py:6-7 | though the wrapper validates nothing itself, a non-empty buffer under invalid settings exits the process with the validation message, in the same directory and before the hook is called |
| AfterFeature.AfterFeatureHook | bddreporting/after_feature.py:3-10 | the method's outcome, trace and working directory are the specification `AfterFeatureSpec`; nothing else in the context changes |
| AfterFeature.FeatureCollectsScenario | bddreporting/before_feature.py:20-32 | with `export_scenario` false and a seed, the scenario's text is not written on its own, and the feature's report is the seed followed by the text |
| AfterFeature.TextLostWithoutSeed | bddreporting/after_scenario.py:47-49 | with `export_scenario` false and an empty feature header, the scenario's text is neither written nor kept |
| AfterFeature.ExportDefaultsDisagree | bddreporting/after_scenario.py:45 | without `export_scenario`, `after_scenario` exports while `before_feature` also seeds the buffer |

## Left out

- Jinja2, Mako, `str.format`, `yaml.safe_load`, `os.path.abspath`, file reads and pandoc are uninterpreted functions of an `Env`. Their own behaviour is not modelled. `os.path.abspath` is a function of the working directory the model tracks and of the path, so a directory left by a failed pandoc run changes later resolutions; its normalisation of the path is not modelled.
- Logging calls are left out, since they change nothing the model can observe.
- The custom converter branch of `write_text` is one `CustomConvert` effect. Its `sys.path` change, its import and the converter's failures are not modelled.
- `os.makedirs`, `os.chdir`, `os.getcwd` and opening the fallback file always succeed in the model.
- The clock is an input (`Now`), since `get_current_date_time` reads the system time.
- YAML floats, dates and other non-JSON values are not values of the model.
- Strings.Lower: lower-cases only the ASCII letters; Python's full Unicode case mapping is not modelled.
- Settings.Config.Get: exits with a fixed message; the jsonschema error text after it is not modelled.
- Settings.Config.All: returns a copy of the store; the aliasing of Python's returned dict is not modelled.
- The docstring of a step function is an input that is already cleaned; `inspect.getdoc`'s cleaning is not modelled.
- `str(template)` on a non-string decorator template is not modelled; templates are strings.
- Any change the step definition makes to the context, other than `context.report`, is not modelled.
- `context.current_step_id` is an input value.
- behave's context layering is left out. The context has a single `log`, and the running feature's `log` and `feature_file_abspath` are fields of it.
- A template file that exists but cannot be read is not modelled. A read returns the contents after newline translation.
- after_scenario: the model takes the feature as `scenario.feature`, where the code reads `context.feature` for the write.
- Each hook records a `write_text` call as a `TextWritten` event and then runs `Writer.WriteText`. The hook continues only when that write finishes, and its effects on files are not kept in the context.
- BeforeFeature.FeatureSeed: a failed header render raises `TemplateError`, whatever exception Jinja2 raised.
- `before_step.py`, `before_scenario.py`, `after_step.py`, `formats/custom-xml.py` and `setup.py` are not part of this model.

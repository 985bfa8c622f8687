# JII MultispeQ protocols: visualiser, validator and documentation text

A Dafny model of the parts of the JII MultispeQ protocol package that turn a
measurement protocol (JSON) into text:

- **Visualiser** (`jii_multispeq_protocols/visualize.py`). For each step of a
  protocol it produces a summary: the start trigger, the title, the detector,
  LED and sensor summaries, the pre-illumination, the do-once note and the
  variable references `#lN`, `@sN`, `@pN` and `@nI:J`. `generate` builds the
  Mermaid flow chart of the whole protocol list.
- **Validator** (`jii_multispeq_protocols/validate.py`). `SchemaValidator`
  collects one message per schema violation.
- **Schema documentation** (`docs/source/scripts/schema.py`).
  - `cmd_details` is the nested list of facts about a command: `$ref`
    resolution, type, enum, bounds, the item-count text, `prefixItems`,
    `items`, `allOf`/`anyOf`/`oneOf` and the description.
  - `cmd_details_print` is its bullet rendering.
  - `cmd_example` is the indented code example.
- **Protocol page** (`docs/source/scripts/protocol.py`, `module_rst`). These
  are the parts of the page that are computed rather than templated:
  - the title taken from the docstring;
  - the flowchart direction and indentation;
  - the validation warning;
  - the settings paragraph and entries;
  - the example-data table;
  - the title underline.

## Modules

| Module | File | What it holds |
|---|---|---|
| `Runtime` | `runtime.dfy` | Python's exceptions as a `Result` datatype, plus `Option`. |
| `Text` | `text.dfy` | The string operations the code calls: `split`, `join`, `strip`, `str(int)`, `int(str)`, `replace`, `lower`, `capitalize`, `*`. |
| `Json` | `json.dfy` | JSON values: dicts are ordered key/value sequences. Also Python's truthiness, `str`, `len`, subscripts, iteration and `{**a, **b}`. |
| `Ids` | `ids.dfy` | `np.hstack` and `np.unique` on id lists. |
| `Visualize`, `Flowchart` | `visualize.dfy`, `flowchart.dfy` | `visualize.py`. |
| `Validate` | `validate.dfy` | `validate.py`. |
| `SchemaDoc` | `schema_doc.dfy` | `schema.py`. |
| `ProtocolPage` | `protocol_page.dfy` | `module_rst`. |

Where the code raises, the model returns `Err` with the Python exception that
would escape: `ValueError`, `KeyError`, `IndexError`, `TypeError`,
`AttributeError`, `UnboundLocalError` and `RecursionError`.

The code updates state step by step in several places, and each becomes a
method with a loop. Each method is proved equal to a specification function,
and the properties are proved about that function:

| Loop | Method |
|---|---|
| Validator's error collection | `Validate.SchemaValidator.ValidateWithAllErrors` |
| Chart assembly in `generate` | `Flowchart.Generate`, with `GenerateChart`, `AppendChart`, `AppendGroup`, `AppendSet` and `AppendSteps` |
| Placeholder rewrite over `cmd_configs` (an `array`) | `SchemaDoc.FillItemCount` |
| Printing loop | `SchemaDoc.PrintDetails` |
| Example loop | `SchemaDoc.ExampleText` |
| Docstring title search | `ProtocolPage.FindHeader` |
| Validation block | `ProtocolPage.ValidationResults` |
| Settings loop | `ProtocolPage.SettingsSection` |
| Example-table loop | `ProtocolPage.BuildTable` |

## Model

| member | source | states |
|---|---|---|
| Validate.SchemaValidator.constructor | jii_multispeq_protocols/validate.py:45-48 | The validator keeps the schema it was built with. |
| Validate.SchemaValidator.ValidateWithAllErrors | jii_multispeq_protocols/validate.py:50-71 | The returned pair is `Outcome(events)`: the messages collected until an `AttributeError` quietly ends the iteration, with `is_valid` true iff none was collected; any other exception escapes. |
| Validate.Validate | jii_multispeq_protocols/validate.py:12-42 | `validate` returns exactly the validator's pair, whatever `verbose` is. |
| Validate.CollectedYielded | jii_multispeq_protocols/validate.py:60-71 | Collecting fails iff the first exception is not an `AttributeError`, and then with that exception. Otherwise there is one message per error yielded before the first exception, in order, each `Path '<path>': <message>`. |
| Validate.YieldedAll | jii_multispeq_protocols/validate.py:62-67 | When nothing raises, every event is a yielded error and each is counted. |
| Validate.OutcomeValid | jii_multispeq_protocols/validate.py:71 | `is_valid` holds iff the error list is empty, iff the validator yielded no error. |
| Validate.ElementTexts | jii_multispeq_protocols/validate.py:64 | One `str(p)` per path element, in order. |
| Validate.PathTextSingle | jii_multispeq_protocols/validate.py:64 | A one-element path reads as that element's text. |
| Validate.PathTextExtend | jii_multispeq_protocols/validate.py:64 | Descending one level appends ` -> ` and the new element's text. |
| Visualize.LedName | jii_multispeq_protocols/visualize.py:14-25 | `LEDS[str(v)]` succeeds iff `str(v)` is one of the ten LED ids, returning its name; otherwise `KeyError(str(v))`. |
| Visualize.Start | jii_multispeq_protocols/visualize.py:44-71 | `start` equals the scan of the seven trigger checks in source order, each `if` overriding the previous result. |
| Visualize.ScanSilent | jii_multispeq_protocols/visualize.py:44-71 | When no check from position k on fires, the result so far is returned unchanged. |
| Visualize.ScanLast | jii_multispeq_protocols/visualize.py:44-71 | When check `last` fires and none after it does, the result is that check's text. |
| Visualize.ScanUnknown | jii_multispeq_protocols/visualize.py:63-69 | The first `par_led_*` field naming an unknown LED raises `KeyError` with that id. |
| Visualize.StartIsLastFiringTrigger | jii_multispeq_protocols/visualize.py:44-71 | With known LEDs, `start` is `None` iff no trigger fires, and otherwise the text of the last trigger that fires. With an unknown LED, it raises `KeyError` for the first such field. |
| Visualize.LastFiring | jii_multispeq_protocols/visualize.py:44-71 | If some trigger fires, there is a last one that fires. |
| Visualize.KnownNames | jii_multispeq_protocols/visualize.py:96 | Keeps exactly the names of the ids the table knows and drops unknown ids. |
| Visualize.TableSummary | jii_multispeq_protocols/visualize.py:87-117 | `detectors`/`leds`: `None` when the field is absent; an empty field raises numpy's `ValueError`. Otherwise the count is the number of distinct flattened ids and the text is `SummaryText` of the known names in ascending id order: inline for a count of 1, one `• name` bullet per line otherwise. |
| Visualize.TableSummaryLines | jii_multispeq_protocols/visualize.py:87-117 | Read back line by line, the summary text is the lone name for a count of 1; otherwise a leading line break followed by exactly one `• <name>` line per known id. |
| Visualize.SummaryInline | jii_multispeq_protocols/visualize.py:97 | With at most one name and a count of 1, the summary is that name alone (or empty). |
| Visualize.SummaryBullets | jii_multispeq_protocols/visualize.py:97 | For a count other than 1, the summary splits into an empty first line and one `• name` bullet per name, in order. |
| Visualize.KnownNamesOrder | jii_multispeq_protocols/visualize.py:94-96 | Names come in the order of their ids: an earlier known id's name precedes a later one's. |
| Visualize.MatchSensor | jii_multispeq_protocols/visualize.py:125-129 | Returns the name of the first sensor, in table order, whose key contains the id as a substring; the id itself when none does. |
| Visualize.SensorSummary | jii_multispeq_protocols/visualize.py:119-139 | `environment`: `None` when absent; an empty field raises `ValueError`. Otherwise the count is the number of distinct raw sensor keys and the text is `SummaryText` of the matched sensor names. |
| Visualize.SensorNamesOf | jii_multispeq_protocols/visualize.py:125-134 | The matched names are the distinct sensor names of the ids, strictly ascending: a name is present iff some id matches to it. |
| Visualize.IntOf | jii_multispeq_protocols/visualize.py:263 | `int(text)` gives the parsed value for a valid literal; a text that does not parse raises `ValueError`. |
| Visualize.IntsOf | jii_multispeq_protocols/visualize.py:278 | `list(map(int, parts))`: one parsed int per part, in order. |
| Visualize.GetVariable | jii_multispeq_protocols/visualize.py:254-283 | A result other than the token itself (or an error) happens only for a string with a non-null `v_arr` and one of the prefixes `#l`, `@s`, `@p`, `@n`. A resolved `#l` token is an int; a resolved `@s`/`@p` token is a string. A `#l`, `@s` or `@p` token whose index parses but is outside `0 .. len(v_arr) - 1` comes back as the token itself. |
| Visualize.GetVariableUnchanged | jii_multispeq_protocols/visualize.py:254-283 | The value comes back unchanged when it is not a string, when there is no `v_arr`, or when it has none of the four prefixes. |
| Visualize.RowTokenFallback | jii_multispeq_protocols/visualize.py:262-275 | `#lN`, `@sN` and `@pN` with `N >= len(v_arr)`, or with a negative N, give back the literal token. |
| Visualize.NegativeRowWraps | jii_multispeq_protocols/visualize.py:262-275 | As written, a negative N from `-len(v_arr)` to -1 passes `idx < len(v_arr)` and reads row `len(v_arr) + N`: its length for `#l`, its joined values for `@s`/`@p`. |
| Visualize.NegativeRowRaises | jii_multispeq_protocols/visualize.py:262-275 | As written, a negative N below `-len(v_arr)` raises `IndexError` at `v_arr[idx]`; the corrected check gives back the token. |
| Visualize.LengthMinusFive | jii_multispeq_protocols/visualize.py:263-265 | `#l-5` against two rows: `IndexError` as written, the token itself when corrected. |
| Visualize.AsWrittenAgrees | jii_multispeq_protocols/visualize.py:262-275 | The as-written and corrected readings agree on every index that is not negative. |
| Visualize.ResolvesLength | jii_multispeq_protocols/visualize.py:262-265 | `#lN` with N in range resolves to the length of row N. |
| Visualize.ResolvesSeries | jii_multispeq_protocols/visualize.py:267-275 | `@sN` and `@pN` with N in range both resolve to row N joined with `, `. |
| Visualize.ResolvesScalar | jii_multispeq_protocols/visualize.py:277-281 | `@nI:J` resolves to `v_arr[I][J]` when both indices are in range, and stays the token otherwise. |
| Visualize.IlluminationLine | jii_multispeq_protocols/visualize.py:151-154 | A triple shorter than three fails, with `IndexError` unless resolving the duration fails first (then with that error). Otherwise the line succeeds iff the LED id is known and both references resolve, and reads `<LED>`, `*Duration (ms)*: <duration>`, `*PAR*: <par>` on three lines. |
| Visualize.IlluminationLines | jii_multispeq_protocols/visualize.py:150-155 | Succeeds iff every triple's line does; then one line per triple, in order. |
| Visualize.IlluminationOfReference | jii_multispeq_protocols/visualize.py:152-154 | An `@nI:J` duration resolves to `v_arr[I][J]` in the text, and a literal PAR value is kept as it is. |
| Visualize.Preillumination | jii_multispeq_protocols/visualize.py:141-161 | `None` without a `pre_illumination` list. An empty list raises `IndexError`. A list of lists gives the `**Illumination**` heading and one line per triple joined by line breaks; a single triple gives the heading and its one line. Either way it succeeds iff every line does. |
| Visualize.DoOnce | jii_multispeq_protocols/visualize.py:207-219 | The *first*-repeat note iff `do_once == 1`, the *last*-repeat note iff `do_once == -1`, and `None` otherwise. |
| Visualize.CountLineGuard | jii_multispeq_protocols/visualize.py:294-312 | The averages/repeats line exists iff the value is an int above 1. It carries ` (delay between: d)` iff the delay is truthy. |
| Visualize.ContentLines | jii_multispeq_protocols/visualize.py:286-334 | Fails with numpy's `ValueError` iff one of the id fields is present but empty; otherwise the first line is the bold title line. |
| Visualize.Content | jii_multispeq_protocols/visualize.py:286-334 | `content` fails exactly as above; otherwise its text is the title line, alone or followed by a line break and the body. |
| Visualize.Label | jii_multispeq_protocols/visualize.py:73-85 | A present `label` is the title. Without one, an index `idx >= 0` gives `Protocol #<idx+1>` and a negative index gives `Protocol`. |
| Visualize.ContentTitle | jii_multispeq_protocols/visualize.py:73-85 | The title is the step's `label`, or `Protocol` when absent; `content` never passes an index. |
| Visualize.ContentLayout | jii_multispeq_protocols/visualize.py:294-332 | The lines under the title, in order: averages, repeats, then `*Detector:* t`, `*Pulsed LED[s]:* t`, `*Non Pulsed LED[s]:* t` and `*Sensor[s]:* t` for the summaries present (singular iff the count is 1; the detector noun never changes), then the do-once note. |
| Flowchart.RenderAllAppend | jii_multispeq_protocols/visualize.py:375-459 | The text of a concatenation of chart lines is the concatenation of their texts. |
| Flowchart.EdgesAppend | jii_multispeq_protocols/visualize.py:395-459 | The arrows of a concatenation are the arrows of each part, in order. |
| Flowchart.BoxesAppend | jii_multispeq_protocols/visualize.py:395-459 | The step boxes of a concatenation are the boxes of each part, in order. |
| Flowchart.EdgeLabel | jii_multispeq_protocols/visualize.py:410-421 | The arrow caption is absent iff there is neither a start signal nor a pre-illumination; otherwise the present ones joined by a blank line. |
| Flowchart.ArrowLabel | jii_multispeq_protocols/visualize.py:412-418 | A caption exists iff the step has a start signal or declares a pre-illumination. |
| Flowchart.DocumentGroups | jii_multispeq_protocols/visualize.py:387-395 | A lone protocol dict is treated as a list of one, and every element is a protocol. |
| Flowchart.AppendSteps | jii_multispeq_protocols/visualize.py:404-428 | The loop over a set's steps appends exactly the rendering of the specified step lines, or fails with the first step's error. |
| Flowchart.AppendStep | jii_multispeq_protocols/visualize.py:406-428 | One pass appends the step's box, its arrow and, for the last step, the arrow to END. |
| Flowchart.AppendSet | jii_multispeq_protocols/visualize.py:402-436 | A set appends its steps' lines and its back arrow, and returns the `idx` left afterwards. |
| Flowchart.AppendGroup | jii_multispeq_protocols/visualize.py:395-459 | One protocol of the list appends its framed lines and returns the `idx` left afterwards. |
| Flowchart.AppendChart | jii_multispeq_protocols/visualize.py:395-459 | The loop over the protocol list produces exactly the rendering of `ChartFrom`, with `idx` carried across protocols. |
| Flowchart.GenerateSpec | jii_multispeq_protocols/visualize.py:336-461 | Each of the four checks fails with its own message: no protocol, a protocol that is not text/dict/list, a non-string direction, styles that are not `None` or a dict. Text that is not JSON raises `ValueError`. |
| Flowchart.Generate | jii_multispeq_protocols/visualize.py:336-461 | `generate` equals `GenerateSpec`: the four input checks with their messages, then the theme preamble, then the lines of every protocol. |
| Flowchart.GenerateChart | jii_multispeq_protocols/visualize.py:375-461 | After the checks, the chart text is the theme preamble (when styles are given), then the loop over the protocols of the decoded string or of the given dict/list; text that is not JSON fails with `ValueError`. |
| Flowchart.GenerateOpening | jii_multispeq_protocols/visualize.py:363-400 | A successful chart had a string direction and `None`-or-dict styles. It opens with the theme block when styles are given, else with `flowchart <direction>` (or is empty). |
| Flowchart.GenerateText | jii_multispeq_protocols/visualize.py:375-459 | The output is the theme preamble followed by the rendered lines of every protocol of the decoded document. |
| Flowchart.ChartHeading | jii_multispeq_protocols/visualize.py:395-400 | The chart lines are empty iff the list is empty; otherwise they open with `flowchart <direction>`. |
| Flowchart.GroupHeading | jii_multispeq_protocols/visualize.py:395-459 | Each protocol's lines start with the heading and `START` and end with `END` and the class definition. |
| Flowchart.FramedShape | jii_multispeq_protocols/visualize.py:397-400 | Framing puts the heading and `START` before, and `END` and the class definition after. |
| Flowchart.StepChartShape | jii_multispeq_protocols/visualize.py:407-428 | Step k draws box `A<k>` and the arrow from its predecessor. The last step also draws the arrow to END, labelled with its delay. |
| Flowchart.StepsEdges | jii_multispeq_protocols/visualize.py:404-428 | The arrows of the steps form the chain START → A0 → … → A(n-1) → END. |
| Flowchart.StepsBoxes | jii_multispeq_protocols/visualize.py:404-428 | The boxes of a set are `A0` to `A(n-1)`, each once, in order. |
| Flowchart.StepsLast | jii_multispeq_protocols/visualize.py:423-428 | A set's lines end with the arrow to END carrying the last step's `protocols_delay`. |
| Flowchart.StepsShape | jii_multispeq_protocols/visualize.py:404-428 | A set's lines have the box sequence, the arrow chain and the final END arrow together. |
| Flowchart.StepHead | jii_multispeq_protocols/visualize.py:404-428 | Step k's lines come first, followed by the later steps' lines. |
| Flowchart.SetShape | jii_multispeq_protocols/visualize.py:402-436 | A set of n steps leaves `idx = n-1` and draws boxes `A0`…`A(n-1)` and the chain. With `set_repeats` it adds the back arrow A(n-1)→A0 and ends with its `linkStyle`; without, it ends with the END arrow. |
| Flowchart.SetChartShape | jii_multispeq_protocols/visualize.py:421-436 | The `linkStyle` index `idx+2` is the position of the back arrow among the set's arrows. |
| Flowchart.SetBackArrow | jii_multispeq_protocols/visualize.py:432-433 | The back arrow is labelled with `set_repeats` resolved against the set's `v_arrays`. |
| Flowchart.RepeatLengthLabel | jii_multispeq_protocols/visualize.py:432-436 | `set_repeats = "#lN"` labels the back arrow with the length of row N of `v_arrays`. |
| Flowchart.SingleShape | jii_multispeq_protocols/visualize.py:438-454 | A protocol without a set draws one box `A0`, `START ==> A0` with the caption resolved without variables, and an unlabelled `A0 ==> END`. |
| Flowchart.SingleChart | jii_multispeq_protocols/visualize.py:440-454 | A lone step's lines are its box, the arrow from START and the arrow to END. |
| SchemaDoc.RefKey | docs/source/scripts/schema.py:148 | `details['$ref'][8:]`: the text after the first eight characters, empty for a shorter string; a non-string fails. |
| SchemaDoc.Resolve | docs/source/scripts/schema.py:146-151 | Details that change are the definition merged over them, without `$ref`. |
| SchemaDoc.ResolveDefinition | docs/source/scripts/schema.py:147-151 | For every key other than `$ref`, the resolved details read the definition's value when it has the key and the original value otherwise. |
| SchemaDoc.ResolveMerged | docs/source/scripts/schema.py:150-151 | Resolving is `{**details, **definition}` with `$ref` deleted. |
| SchemaDoc.ResolveUnknown | docs/source/scripts/schema.py:149 | A `$ref` naming no definition leaves the details unchanged, `$ref` included. |
| SchemaDoc.Plural | docs/source/scripts/schema.py:187 | `"s"` iff the count is above 1; comparing a non-number raises `TypeError`. |
| SchemaDoc.TypeLines | docs/source/scripts/schema.py:162-169 | A dict without `type` gives no line. A non-list type gives one line; a list type succeeds iff every type is a string. The one line opens with `**` and, when `minItems` or `maxItems` is present, ends with the `items_msg` placeholder. |
| SchemaDoc.CapitalizeAll | docs/source/scripts/schema.py:169 | Succeeds iff every type is a string, and then capitalizes each. |
| SchemaDoc.ToStrs | docs/source/scripts/schema.py:173 | `str(x)` of every enum value, in order. |
| SchemaDoc.ItemCountCases | docs/source/scripts/schema.py:184-195 | Gives the "Exactly", "Between", "At least" or "Up to" text for integer bounds, or none when neither bound is given; "item" is plural only above 1. |
| SchemaDoc.MinItemsAloneRaises | docs/source/scripts/schema.py:191-192 | As written, `minItems` without `maxItems` raises `KeyError('maxItems')`; the corrected text reads "At least n". |
| SchemaDoc.Filled | docs/source/scripts/schema.py:197-201 | Each string entry has its `items_msg` placeholder replaced; nested lists are untouched. |
| SchemaDoc.FillItemCount | docs/source/scripts/schema.py:198-201 | The in-place loop over `cmd_configs` leaves the array equal to `Filled` of its old contents. |
| SchemaDoc.FilledNoPlaceholder | docs/source/scripts/schema.py:198-201 | Lines without the placeholder are not changed. |
| SchemaDoc.PlaceholderOnlyAtEnd | docs/source/scripts/schema.py:162-169 | A type line holds the placeholder only where it was appended, unless the type names themselves spell it. |
| SchemaDoc.TypeLineWithPlaceholder | docs/source/scripts/schema.py:162-169 | With an item bound, a single type reads `**Type** items_msg` and a list of types `**A, B**  items_msg`. |
| SchemaDoc.NoValueLines | docs/source/scripts/schema.py:171-181 | Without `enum`, `minimum` and `maximum` there are no value lines. |
| SchemaDoc.OnlyTypeLine | docs/source/scripts/schema.py:153-201 | When the type line is the only head line, the head is that line with the count filled in. |
| SchemaDoc.ExactTypeLine | docs/source/scripts/schema.py:166-201 | One type with equal integer item bounds reads `**Type** (Exactly n item[s])`. |
| SchemaDoc.UpToTypesLine | docs/source/scripts/schema.py:168-201 | A list of types with only `maxItems` reads `**A, B**  (Up to n item[s])`, with two spaces. |
| SchemaDoc.ObjectDetails | docs/source/scripts/schema.py:204-224 | `prefixItems` and a list of `items`: succeeds iff every dict entry's details do, giving exactly one nested list per dict entry, in order, each that entry's `cmd_details`. |
| SchemaDoc.SubschemaDetails | docs/source/scripts/schema.py:239-240 | Succeeds iff every subschema's details do; then exactly one nested list per subschema, in order, each that subschema's `cmd_details` one level deeper. |
| SchemaDoc.OfPrecedence | docs/source/scripts/schema.py:226-242 | `allOf` beats `anyOf`, which beats `oneOf`. The block is the winner's heading, then the `cmd_details` of each of the winner's subschemas, nested and in order. |
| SchemaDoc.CmdDetails | docs/source/scripts/schema.py:142-248 | Without fuel, `RecursionError`; a failing `$ref` lookup propagates. A result opens with the head lines (type, enum, bounds with the count filled in), and below the top level it ends with the italic description. |
| SchemaDoc.DescriptionLines | docs/source/scripts/schema.py:244-246 | The italic description appears only below the top level. |
| SchemaDoc.PrintedAppend | docs/source/scripts/schema.py:259-266 | Printing a concatenation prints the parts one after the other. |
| SchemaDoc.Bullets | docs/source/scripts/schema.py:262 | One bullet per line, indented by `level` double spaces. |
| SchemaDoc.PrintedLines | docs/source/scripts/schema.py:250-268 | A flat list prints as exactly one bullet line per entry, in order. |
| SchemaDoc.PrintDetails | docs/source/scripts/schema.py:250-268 | The printing loop equals `Printed`: a line is a bullet, and a nested list is a blank line followed by its bullets one level deeper. |
| SchemaDoc.CmdExample | docs/source/scripts/schema.py:270-300 | Succeeds iff the example body does; then every output line is the matching line of the body behind two spaces, with no line added or lost. |
| SchemaDoc.NoExample | docs/source/scripts/schema.py:295-298 | Without `examples`, the placeholder `## Code Example` / `cmd: <input>` is produced, indented. |
| SchemaDoc.SingleStringExample | docs/source/scripts/schema.py:281-298 | A single string example gives an unnumbered heading, the quoted value and a trailing indented blank line. |
| SchemaDoc.NumberedExamples | docs/source/scripts/schema.py:283-293 | With several examples, the text reads back as three lines per example: `## Code Example #k` numbered from 1, the example line, then a blank line. |
| SchemaDoc.ExampleText | docs/source/scripts/schema.py:280-293 | The example loop equals `Examples` over all items. |
| ProtocolPage.FirstTrue | docs/source/scripts/protocol.py:221-229 | Finds the first title position, or reports that none exists. |
| ProtocolPage.Header | docs/source/scripts/protocol.py:217-229 | The header is the first title line, stripped, or the module name when no line qualifies. A missing docstring fails. |
| ProtocolPage.FindHeader | docs/source/scripts/protocol.py:217-229 | The search loop with `break` equals `Header`. |
| ProtocolPage.HeaderFirstLine | docs/source/scripts/protocol.py:221-228 | A docstring opening with a title and its underline is titled by that line, stripped. |
| ProtocolPage.PageHeaderLines | docs/source/scripts/protocol.py:372 | The page heading is the title, then as many `=` as it has characters. |
| ProtocolPage.DirectionOfSet | docs/source/scripts/protocol.py:249 | `TD` iff the first protocol is a set of more than one step, `LR` otherwise. |
| ProtocolPage.DictProtocolRaises | docs/source/scripts/protocol.py:249 | As written, a dict protocol raises `KeyError: 0`; the corrected direction of a two-step set is `TD`. |
| ProtocolPage.SplitLines | docs/source/scripts/protocol.py:252 | `splitlines()` pieces contain no line break. |
| ProtocolPage.IndentedChartLines | docs/source/scripts/protocol.py:252 | Every line of the placed chart is the chart's line behind three spaces, in order. |
| ProtocolPage.SplitLinesRejoin | docs/source/scripts/protocol.py:252 | A newline-terminated chart is exactly its lines rejoined, so indenting loses only the terminators. |
| ProtocolPage.ValidationResults | docs/source/scripts/protocol.py:241-244 | The loop gives the empty text for a valid protocol, otherwise the warning and one `  + <error>` line per error. |
| ProtocolPage.Bulleted | docs/source/scripts/protocol.py:244 | One `  + <error>` line per error. |
| ProtocolPage.ErrorLinesSplit | docs/source/scripts/protocol.py:243-244 | Single-line errors give exactly one text line each, in order. |
| ProtocolPage.ValidationLines | docs/source/scripts/protocol.py:241-244 | A failed validation reads back as a blank line, the warning, a blank line, then one line per error. |
| ProtocolPage.ValidationSectionEmpty | docs/source/scripts/protocol.py:238-244 | The block is empty iff the validator yields no error; otherwise it has one line per yielded error. |
| ProtocolPage.Noun | docs/source/scripts/protocol.py:265 | Singular iff exactly one setting. |
| ProtocolPage.SettingEntry | docs/source/scripts/protocol.py:270-275 | A dict setting with both `prompt` and `default` gives the prompt entry naming the key and default; any other dict gives the unknown-setting notice. |
| ProtocolPage.Entries | docs/source/scripts/protocol.py:268-275 | Succeeds iff every setting's entry does; then one entry per setting, in order. |
| ProtocolPage.EntriesOfDicts | docs/source/scripts/protocol.py:268-275 | With dict settings, one entry per setting, in order. |
| ProtocolPage.EntriesFail | docs/source/scripts/protocol.py:269-275 | The first setting whose entry raises stops the section with that error. |
| ProtocolPage.SettingsSection | docs/source/scripts/protocol.py:261-285 | The settings loop equals `SettingsSpec`, with the serialised settings assigned after the loop. |
| ProtocolPage.SettingsOfDicts | docs/source/scripts/protocol.py:261-285 | With dict settings, the section counts them, gives one entry each in order, and keeps the serialised code. |
| ProtocolPage.SettingsAsWritten | docs/source/scripts/protocol.py:261-285 | As written: a non-dict raises, an empty dict raises `UnboundLocalError`, and any other dict gives the corrected section. |
| ProtocolPage.EmptySettingsRaise | docs/source/scripts/protocol.py:277-278 | As written, an empty settings dict raises `UnboundLocalError`; the corrected section is the count 0 and no entries. |
| ProtocolPage.SettingsAgree | docs/source/scripts/protocol.py:269-278 | With at least one setting, the as-written and corrected sections are equal. |
| ProtocolPage.InsertByLower | docs/source/scripts/protocol.py:314 | Inserting into a list sorted by lower-case keeps it sorted and adds exactly that key. |
| ProtocolPage.SortByLower | docs/source/scripts/protocol.py:314 | `sorted(keys, key=str.lower)` is sorted by lower-case text and is a permutation of the keys. |
| ProtocolPage.SortedKeys | docs/source/scripts/protocol.py:314 | Every sorted key is a key of the data. |
| ProtocolPage.BuildTable | docs/source/scripts/protocol.py:316-342 | The table loop equals `ExampleTable`, stopping where an empty list raises `IndexError`. |
| ProtocolPage.TableRows | docs/source/scripts/protocol.py:316-342 | Every row is a key with its value, `N/A` exactly for `None`. Every graph is a non-reserved key whose list starts with a number. The table only grows. |
| ProtocolPage.TableComplete | docs/source/scripts/protocol.py:316-342 | When no empty list stops the loop, every key is placed once, as a row or as a graph. |
| ProtocolPage.ExampleTableRows | docs/source/scripts/protocol.py:314-342 | The example table is made only of such rows and graphs, and it covers all keys when nothing stops it. |
| Json.Lookup | jii_multispeq_protocols/visualize.py:163-252 | `d[k]` exists iff `k in d`, and it is the value paired with `k`. |
| Json.Field | jii_multispeq_protocols/visualize.py:163-252 | The getters (`averages`, `protocols_delay`, `set_repeats`, `v_arrays`, …) return the value under the key, or `None` when it is absent. |
| Json.LookupMerge | docs/source/scripts/schema.py:150 | In `{**a, **b}`, `b`'s value wins when `b` has the key, and `a`'s value is used otherwise. |
| Json.Remove | docs/source/scripts/schema.py:151 | `del d[k]` removes the key and leaves every other key's value unchanged. |
| Json.Index | jii_multispeq_protocols/visualize.py:148 | `v[i]` on a list is the element for an in-range index, and `IndexError` outside `-len..len-1`. |
| Ids.Flatten | jii_multispeq_protocols/visualize.py:94 | `np.hstack`: the result holds exactly the scalars and the members of nested lists. |
| Ids.Unique | jii_multispeq_protocols/visualize.py:95 | `np.unique` is strictly ascending and has the same members as its input. |
| Ids.UniqueCount | jii_multispeq_protocols/visualize.py:94 | `len(np.unique(...))` is the number of distinct ids. |
| Ids.FieldIds | jii_multispeq_protocols/visualize.py:94-95 | The distinct ids of an id field, ascending, counted as the distinct flattened ids. |
| Text.Split | docs/source/scripts/schema.py:298 | `split` gives at least one piece, and no piece holds the separator. |
| Text.JoinSplit | docs/source/scripts/schema.py:298 | Splitting and rejoining with the same character gives back the text. |
| Text.SplitJoin | jii_multispeq_protocols/visualize.py:278 | Joining separator-free pieces and splitting again gives back the pieces. |
| Text.ParseIntToString | jii_multispeq_protocols/visualize.py:263 | `int(str(n)) == n`, negative numbers included. |
| Text.StripLeft | docs/source/scripts/protocol.py:223 | Removes exactly the leading whitespace. |
| Text.StripRight | docs/source/scripts/protocol.py:223 | Removes exactly the trailing whitespace. |
| Text.Find | docs/source/scripts/schema.py:201 | The first occurrence, or none iff the pattern does not occur. |
| Text.Replace | docs/source/scripts/schema.py:201 | A text without the pattern is returned unchanged. |
| Text.ReplaceFirst | docs/source/scripts/schema.py:201 | The leftmost occurrence is replaced first, and the scan continues after it: `a + pat + b` becomes `a + rep` and the replaced `b` when no occurrence starts inside `a`. |
| Text.Capitalize | docs/source/scripts/schema.py:167 | The first character upper-cased and every later character lower-cased, one for one. |
| Text.Indented | docs/source/scripts/schema.py:298 | Every line behind the same prefix, one for one and in order: two spaces for the schema code example, three for the flowchart (protocol.py:252). |
| Text.Lower | docs/source/scripts/protocol.py:314 | Every character is lower-cased, and the length is kept. |

## Left out

### I/O, foreign code and runtime

- Reading `schema.json` and jsonschema's `iter_errors` are not part of this model. What the iteration produces is an input: a sequence of yielded errors and raised exceptions.
- Printing (the `verbose` flag, `print(e)`, `traceback`) and writing the `.rst` file are left out.
- The `DEV` branch of `cmd_details_print` is left out.
- `module_rst` reads module attributes through `hasattr`/`getattr`; these become inputs.
- `_measurement.analyze` is foreign code; its result is the input `data` of `ProtocolPage.ExampleTable`.
- `json.loads` in `generate` is an input: the decoded document, or `None` for text that is not JSON.
- `json.dumps(styles)` is an input string. `json.dumps(item, indent=2)` in `cmd_example` is a function parameter.
- `pprint.pformat`, `textwrap.indent` of the settings code, `string.Template` substitution and `tabulate`'s rST layout are left out. The table is kept as rows and graph names, and the graph template text is not produced.
- ProtocolPage.ExampleTable: the example section is written only when the table has at least one row (docs/source/scripts/protocol.py:349), so graphs collected without any row are dropped from the page. The model returns rows and graphs and does not model that choice, since it produces no page text.
- `gettext.ngettext` is modelled without a translation catalogue (English singular/plural).
- Analysis output values that are floats or NumPy arrays are not modelled: JSON here has no floats, so a list "starts with a number" when its first element is an int or a bool.

### Text and numbers

- `lower`, `upper` and `capitalize` map ASCII letters only; Python's Unicode case mapping is not modelled. `strip` removes the characters Python's `str.isspace` accepts, Unicode whitespace included.
- `splitlines` is modelled for text whose only line break is `\n`.
- `int()` accepts an optional sign, digits with single underscores, and surrounding whitespace. Other Unicode digits are not modelled.
- Floats are not modelled anywhere. An id, a count or a delay is an int, a bool or a string.
- Json.Equal: numbers and bools compare by value at the top level only. Lists and dicts compare structurally, so Python's `[1] == [True]` and the key-order-insensitive equality of dicts are not modelled. The model compares only `minItems` with `maxItems` and `type` with `"string"`, where this makes no difference.

### Preconditions and limits

- `Visualize.TableSummary` and `Flowchart.Generate` require that the id fields (`detectors`, `pulsed_lights`, `nonpulsed_lights`) are lists of ids or non-empty id lists, all ints or all strings. `Visualize.SensorSummary` requires the same of `environmental`, whose ids are strings. NumPy's behaviour on ragged or mixed-type arrays is not modelled.
- Flowchart.Generate, Flowchart.GenerateSpec: they require the protocol document to be a dict or a list of dicts, each with a well-formed step list (a list `_protocol_set_` of dict steps). A protocol list holding a non-dict, a non-list `_protocol_set_`, or decoded JSON that is a scalar are accepted by the code and fail later inside it. These cases are not modelled.
- SchemaDoc.NumberedExamples: states the line structure only for examples whose rendered line has no line break (string examples, and values whose `json.dumps` is one line). An indented multi-line dump adds lines inside an entry.
- SchemaDoc.CmdDetails: `cmd_details` carries a `fuel` bound standing for Python's recursion limit. A `$ref` cycle or very deep schema ends in `RecursionError` at that bound rather than at Python's actual depth.

### Weaker contracts

- Visualize.ContentLines, Visualize.Content: their contracts state when `content` fails and its title line. `ContentLayout` states the captions and the order of the lines under the title (over the parts `BodyLines` assembles). What each part holds is stated by `CountLineGuard`, `TableSummary`, `SensorSummary` and `DoOnce`.
- Visualize.GetVariable: uses the corrected row check for `#l`, `@s` and `@p`, which rejects every negative index as `@n`'s `in range(len(v_arr))` does. As written, an index from `-len(v_arr)` to -1 reads from the end of `v_arr` and a lower one raises `IndexError`; `GetVariableAsWritten`, `NegativeRowWraps` and `NegativeRowRaises` state that behaviour (see Findings).
- SchemaDoc.CmdDetails, SchemaDoc.HeadLines: they use the corrected item count. As written, `minItems` without `maxItems` raises `KeyError('maxItems')`; `SchemaDoc.MinItemsAloneRaises` states that behaviour (see Findings).
- Flowchart.GenerateOpening: states how the text opens, not the whole text; `GenerateText` states the whole text.
- ProtocolPage.SortByLower: states sorted-and-permutation. Stability for keys equal up to case is not stated.
- Flowchart.SetChartShape: the `linkStyle` index is proved to be the back arrow's position among the set's own arrows. Mermaid numbers links across the whole chart, so with several protocols in one chart the style lands elsewhere; the model renders what the code writes.

## Findings

| source | as written | input that shows it | evidently intended | confidence | as-written member | corrected member |
|---|---|---|---|---|---|---|
| docs/source/scripts/schema.py:191-192 | With only `minItems`, the "At least" text reads `details["maxItems"]` | `{"type": "array", "minItems": 2}` raises `KeyError('maxItems')` | "(At least 2 items)" from `minItems` | high, not executed | SchemaDoc.MinItemsAloneRaises | SchemaDoc.ItemCountCases |
| docs/source/scripts/protocol.py:249 | `protocol_code[0]` on a dict protocol, which the flowchart generator accepts | `{"_protocol_set_": [a, b]}` raises `KeyError: 0` | A dict is the only protocol of the list, giving `TD` | medium, not executed | ProtocolPage.DictProtocolRaises | ProtocolPage.DirectionOfSet |
| docs/source/scripts/protocol.py:277-278 | `formatted_settings_code` is assigned only inside the `for` loop | `_settings = {}` raises `UnboundLocalError` | Count 0, no entries, and the serialised settings | high, not executed | ProtocolPage.EmptySettingsRaise | ProtocolPage.SettingsSection |
| jii_multispeq_protocols/visualize.py:262-275 | The `#l`, `@s` and `@p` branches check only `idx < len(v_arr)`, so any negative index passes | `"#l-5"` with two rows raises `IndexError` at `v_arr[-5]` | The literal token, as for every other index that names no row; the `@n` branch checks `in range(len(v_arr))` | medium, not executed | Visualize.NegativeRowRaises | Visualize.RowTokenFallback |

# datadog-mcp monitor tools, modelled in Dafny

This project models two tools of the Datadog MCP server: `monitor_edit` and `get_monitor`.

`monitor_edit` does the following, in this order:
- it checks that a `monitor_id` was given;
- it checks that an optional `priority` lies in 1..5;
- it builds an update patch from the optional `name`, `message`, `tags` and `priority` fields, and refuses an empty patch;
- it issues one update and reports `Monitor <id> updated successfully`;
- it maps HTTP 404 to `Monitor not found`, 403 to `Permission denied`, and any other failure to `Error: <message>`.

`get_monitor` checks for a `monitor_id`, fetches the monitor and returns it.
- It returns JSON when `format` is `"json"`; otherwise it renders a fixed text table.
- The table has a title, a rule of fifteen `=` and a blank line.
- Eight labelled lines follow: ID, Name, Type, State, Priority, Tags, Query, Message.
- Missing keys show defaults. At most five tags are shown, plus a `(+N more)` count.
- The message is cut to 100 characters plus `...`, and its line feeds become spaces.
- An empty tags or message value shows `None`.
- It uses the same error mapping as the edit tool.

Files:
- `fields.dfy` (module `Fields`)
  - `Option`.
  - `Field`, a key of a JSON object that is absent, present with `null`, or present with a value.
  - The two Python lookups: `d.get(k)` and `d.get(k, default)`.
- `strings.dfy` (module `Strings`)
  - Decimal rendering of integers (`str(int)`), with a parser that proves the rendering round-trips.
  - `", ".join`, `split("\n")`, and line-by-line assembly; splitting the assembled text gives back its lines plus one final empty piece.
  - Newline replacement.
- `remote.dfy` (module `Remote`)
  - The monitor record.
  - The failures a remote call can raise.
  - `Outcome`, the result of a remote call.
- `results.dfy` (module `Results`)
  - Tool results.
  - The error messages shared by both tools.
  - The error classification.
- `monitor_edit.dfy` (module `MonitorEdit`): the edit handler, as a method with early returns that fills the patch map step by step.
- `get_monitor.dfy` (module `GetMonitor`): the table renderer as pure functions, the get handler, and the lemmas about the table's layout.

The remote calls (`update_monitor`, `fetch_monitor`) are not modelled. Each handler takes the call's `Outcome` as a parameter and returns whether the call was made, and with which arguments.

## Model

| member | source | states |
|---|---|---|
| Fields.Field.Get | datadog_mcp/tools/monitor_edit.py:58-69 | `args.get(key)` gives a value exactly when the key is present and not null, and then the key's own value |
| Fields.Field.GetOr | datadog_mcp/tools/get_monitor.py:60-67 | `monitor.get(key, default)` gives None exactly for a null key, the default for a missing key, and the value for a present one |
| Results.ErrorText | datadog_mcp/tools/monitor_edit.py:100-121 | The error text is "Monitor not found", "Permission denied", or begins with "Error: " |
| Strings.Join | datadog_mcp/tools/get_monitor.py:68 | The join begins with the first part, and with the first part and the separator when there are two or more parts |
| Strings.Unlines | datadog_mcp/tools/get_monitor.py:75-84 | Text assembled from terminated lines is empty exactly when there are no lines, and otherwise begins with the first line and its line feed |
| MonitorEdit.ArgsOf | datadog_mcp/tools/monitor_edit.py:56 | Missing arguments read as an object with every key missing; given arguments are used as they are |
| MonitorEdit.PriorityOutOfRange | datadog_mcp/tools/monitor_edit.py:71 | The priority is acceptable exactly when it is missing, null, or between 1 and 5 inclusive |
| MonitorEdit.AnyFieldGiven | datadog_mcp/tools/monitor_edit.py:77-87 | No field is given exactly when `get` reads None for name, message, tags and priority alike |
| MonitorEdit.IsPatchOf | datadog_mcp/tools/monitor_edit.py:77-87 | A patch of the arguments is empty exactly when no field is given |
| GetMonitor.ArgsOf | datadog_mcp/tools/get_monitor.py:44 | Missing arguments read as an object with every key missing; given arguments are used as they are |
| GetMonitor.WantsJson | datadog_mcp/tools/get_monitor.py:47-57 | JSON is chosen exactly when format is present with the value "json"; a missing format reads as "table" and a null one as None |
| GetMonitor.Show | datadog_mcp/tools/get_monitor.py:60-64 | A string key's value shows as itself, and None shows as "None" |
| GetMonitor.PriorityText | datadog_mcp/tools/get_monitor.py:63-81 | The Priority value has no line feed; it is "N/A" for a missing key, "None" for a null one, and the decimal text of the priority otherwise, which parses back to it |
| GetMonitor.TagsValue | datadog_mcp/tools/get_monitor.py:67-82 | The Tags value is never empty; with more than five tags it begins with the join of the first five; with up to five whose join is not empty it is exactly that join |
| GetMonitor.ValuesShowDefaults | datadog_mcp/tools/get_monitor.py:60-67 | For ValuesOf: a missing name shows Unnamed, a missing type or state unknown, a missing priority or query N/A, missing tags or message None; null name, type, state, priority and query show None; present string keys show their value; the ID value parses back to the requested id |
| GetMonitor.LayoutColumns | datadog_mcp/tools/get_monitor.py:75-84 | For Layout: eleven lines, the title, the rule and a blank line first; each of the other eight has a ten-character caption ending in a space, followed by exactly the id, name, type, state, priority, tags, query and message values in that order |
| Results.Classify | datadog_mcp/tools/monitor_edit.py:100-121 | A failure is NotFound exactly when it is an HTTP error with status 404, PermissionDenied exactly when the status is 403, and Unclassified for every other status or exception |
| Results.ErrorTextCases | datadog_mcp/tools/get_monitor.py:91-112 | The error text is "Monitor not found" iff the status is 404, "Permission denied" iff it is 403, and otherwise "Error: " followed by the exception's message |
| Strings.NatToString | datadog_mcp/tools/monitor_edit.py:96 | The decimal text of a natural number is non-empty and all digits, with no leading zero except for 0 itself |
| Strings.IntToString | datadog_mcp/tools/get_monitor.py:77 | The decimal text of an integer is non-empty and has no line feed; it starts with '-' exactly when the number is negative |
| Strings.ParseNatToString | datadog_mcp/tools/monitor_edit.py:96 | Parsing the decimal text of a natural number gives the number back |
| Strings.ParseIntToString | datadog_mcp/tools/get_monitor.py:77 | Parsing the decimal text of an integer gives the integer back, so the text names the id unambiguously |
| Strings.JoinEmpty | datadog_mcp/tools/get_monitor.py:68 | With a non-empty separator, a join is empty exactly when there are no parts or one empty part |
| Strings.JoinPrefix | datadog_mcp/tools/get_monitor.py:68 | Joining the first k parts gives a prefix of joining all the parts |
| Strings.JoinNoNewline | datadog_mcp/tools/get_monitor.py:68 | A join of parts and a separator without line feeds has no line feed |
| Strings.Lines | datadog_mcp/tools/get_monitor.py:75-84 | Splitting a text at line feeds gives at least one piece |
| Strings.LinesOfLine | datadog_mcp/tools/get_monitor.py:75-84 | A text without a line feed splits into just itself |
| Strings.LinesAppend | datadog_mcp/tools/get_monitor.py:75-84 | Splitting x + "\n" + y gives the pieces of x followed by the pieces of y |
| Strings.LinesUnlines | datadog_mcp/tools/get_monitor.py:75-84 | Lines each terminated by "\n" and free of line feeds split back into exactly those lines and a final empty piece |
| Strings.UnlinesOfThree | datadog_mcp/tools/get_monitor.py:75-76 | Three terminated lines are the three lines, each followed by one line feed |
| Strings.UnlinesPrefix | datadog_mcp/tools/get_monitor.py:75-84 | Appending terminated lines one at a time only extends the text: the first k lines are a prefix of the whole |
| Strings.LinesUnlinesLast | datadog_mcp/tools/get_monitor.py:84 | If the last terminated line has no line feed, the text splits into a final empty piece preceded by that whole line |
| Strings.ReplaceNewlines | datadog_mcp/tools/get_monitor.py:73 | Replacing line feeds by spaces keeps the length and, position by position, turns every line feed into a space and keeps every other character |
| MonitorEdit.PatchIsUnique | datadog_mcp/tools/monitor_edit.py:77-85 | The patch is fully determined by the arguments: two patches that both hold exactly the given fields are equal |
| MonitorEdit.BuildUpdates | datadog_mcp/tools/monitor_edit.py:77-85 | The patch holds exactly the fields that are present and not null, including an empty string or list, each with its value unchanged and no other key; it is empty exactly when no field is given |
| MonitorEdit.HandleCall | datadog_mcp/tools/monitor_edit.py:55-121 | A missing or null id is reported first, then a priority outside 1..5, then an empty patch, each with its exact text and no update; the update is made exactly when all three pass, with the id and the exact patch; success reads "Monitor <id> updated successfully" and is not an error; failures map to 404/403/other texts |
| GetMonitor.TagsValueCases | datadog_mcp/tools/get_monitor.py:67-70 | More than five tags show the join of the first five followed by " (+n-5 more)", and that join is a prefix of the join of all tags; up to five tags, other than a single empty one, show just their join; no tags or one empty tag show "None" |
| GetMonitor.MessageText | datadog_mcp/tools/get_monitor.py:72-73 | The shown message has no line feed; a message over 100 characters shows its first 100 (line feeds as spaces) plus "...", 103 characters in all; a shorter one keeps its length with its line feeds as spaces |
| GetMonitor.MessageValue | datadog_mcp/tools/get_monitor.py:72-84 | The Message value has no line feed and at most 103 characters; an empty message shows "None", any other shows its shortened text |
| GetMonitor.TableHeader | datadog_mcp/tools/get_monitor.py:75-76 | A table whose first lines are the title, the rule and a blank line begins with "Monitor Details\n", fifteen '=' and "\n\n" |
| GetMonitor.RenderTable | datadog_mcp/tools/get_monitor.py:60-84 | Rendering fails exactly when tags or message is present but null, as the slicing or length of None raises; otherwise the text begins with the header |
| GetMonitor.HandleCall | datadog_mcp/tools/get_monitor.py:41-112 | The fetch happens exactly when the id is given, with that id, and a missing id gives its error; a fetch failure maps to the 404/403/other texts; JSON is returned exactly for format "json"; every other successful reply is the rendered table, which begins with the header; an exception while rendering (a null tags or message) gives "Error: " followed by its message |
| GetMonitor.ShownOnOneLine | datadog_mcp/tools/get_monitor.py:60-64 | A string key read with a default has no line feed when neither its value nor the default has one |
| GetMonitor.TagsValueOneLine | datadog_mcp/tools/get_monitor.py:67-82 | Tags without line feeds give a Tags value without one |
| GetMonitor.ValuesAreOneLine | datadog_mcp/tools/get_monitor.py:60-73 | When no string key or tag of the record holds a line feed, none of the eight table values does |
| GetMonitor.LayoutIsLines | datadog_mcp/tools/get_monitor.py:75-84 | When the values have no line feed, no line of the layout has one |
| GetMonitor.TableLayout | datadog_mcp/tools/get_monitor.py:75-84 | When no key holds a line feed, the table splits into exactly the title, the rule, a blank line and the eight labelled lines ID, Name, Type, State, Priority, Tags, Query, Message in that order, with nothing after the last line feed |
| GetMonitor.MessageLineIntact | datadog_mcp/tools/get_monitor.py:72-84 | Whatever the other keys hold, the table's last line is the whole Message line, because the message never spills onto a further line |
| GetMonitor.AbsentKeysShowDefaults | datadog_mcp/tools/get_monitor.py:60-84 | A record with none of the keys renders Unnamed, unknown, unknown, N/A, None, N/A, None on the Name to Message lines, and its ID line shows the requested id |
| GetMonitor.NullKeysShowNone | datadog_mcp/tools/get_monitor.py:60-64 | Name, type, state, priority and query present with null show None, not their defaults; the Tags line shows None here because tags is absent (a null tags raises, see RenderTable) |
| GetMonitor.CpuHighAlertTable | tests/test_get_monitor.py:148-181 | For the test's record, the table is the layout of its values, and its ID, Name, Type and State values are 12345, CPU High Alert, metric alert and OK, so TableLayout puts each on its own line |
| GetMonitor.CpuHighAlertScenario | tests/test_get_monitor.py:148-181 | For the test's call with format "table", the monitor is fetched with id 12345 and the reply is that table, not an error |
| GetMonitor.SevenTagsScenario | datadog_mcp/tools/get_monitor.py:67-70 | An example with seven one-letter tags, a to g (the handler's test uses tag1 to tag7): the value is "a, b, c, d, e (+2 more)" |

## Left out

- `update_monitor` and `fetch_monitor` are abstract `Outcome` parameters. They do HTTP I/O in `datadog_mcp/utils/datadog_client.py`, which is not part of this model, and that file also holds the edit's read-then-PUT merge.
- The JSON reply (`json.dumps(monitor, indent=2)`) is modelled as content that carries the fetched record, not as its serialised text; the serialiser is library code.
- `get_tool_definition` of both tools is left out. It is a constant input schema, and the handlers do not rely on it: they read the arguments unchecked.
- Logging of errors is left out (a side effect with no bearing on the result), as are `async`/`await` and the MCP request and result wrapper classes beyond their fields.
- Argument and record values are modelled with the types the tool schema documents: an integer id and priority, string name, message and query, a list of string tags. Values of other JSON types are not modelled: a string priority that makes `<` raise, a boolean taken as an integer, a non-string tag that makes the join raise, or a non-string name or message.
- A present-but-null `tags` or `message` in a fetched record is modelled as the TypeError it raises. The texts are CPython's messages.
- `str(e)` of an `httpx.HTTPStatusError` is an opaque message carried in the failure, not rebuilt from the response.
- The two handlers' exception paths are modelled only where the code can raise: the remote call, and the table's slicing and length of a null value.

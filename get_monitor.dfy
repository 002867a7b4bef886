/** The get_monitor tool: validate the monitor id, fetch the monitor once, and
    render it as JSON or as a fixed table. */
module GetMonitor {
  import opened Fields
  import opened Strings
  import opened Remote
  import opened Results

  /** The arguments of a get_monitor call. */
  datatype GetArgs = GetArgs(monitorId: Field<int>, format: Field<string>)

  /** `request.arguments or {}`: missing arguments read as an empty object. */
  function ArgsOf(arguments: Option<GetArgs>): (a: GetArgs)
    ensures arguments.None? ==> a == GetArgs(Absent, Absent)
    ensures arguments.Some? ==> a == arguments.value
  {
    arguments.GetOr(GetArgs(Absent, Absent))
  }

  /** `args.get("format", "table") == "json"` */
  predicate WantsJson(a: GetArgs)
    ensures WantsJson(a) <==> a.format == Present("json")
  {
    a.format.GetOr("table") == Some("json")
  }

  /** The result, and the id `fetch_monitor` was called with, if it was called. */
  datatype Response = Response(result: ToolResult, fetched: Option<int>)

  /** CPython's messages for `None[:5]` and `len(None)`. */
  const NotSubscriptableText := "'NoneType' object is not subscriptable"
  const NoLenText := "object of type 'NoneType' has no len()"

  const Title := "Monitor Details"
  /** `"=" * 15` */
  const Rule := Repeat('=', 15)
  const Header := Title + "\n" + Rule + "\n" + "\n"
  const NoneText := "None"

  /** An f-string of a string key read with `monitor.get(key, default)`; a null shows as None. */
  function Show(v: Option<string>): (r: string)
    ensures v.None? ==> r == NoneText
    ensures v.Some? ==> r == v.value
  {
    match v
    case Some(s) => s
    case None => NoneText
  }

  /** The Priority value: N/A when the key is missing, None when it is null. */
  function PriorityText(p: Field<int>): (r: string)
    ensures '\n' !in r
    ensures p.Absent? ==> r == "N/A"
    ensures p.Null? ==> r == NoneText
    ensures p.Present? ==> ParseInt(r) == Some(p.value)
  {
    match p
    case Absent => "N/A"
    case Null => NoneText
    case Present(n) => ParseIntToString(n); IntToString(n)
  }

  /** The Tags value: the first five tags joined by ", ", then how many more there
      are; "None" when that text is empty. */
  function TagsValue(tags: seq<string>): (r: string)
    ensures r != ""
    ensures |tags| > 5 ==> Join(", ", tags[..5]) <= r
    ensures |tags| <= 5 && Join(", ", tags) != "" ==> r == Join(", ", tags)
  {
    assert |tags| <= 5 ==> tags[..|tags|] == tags;
    var shown := Join(", ", tags[..if |tags| < 5 then |tags| else 5]);
    var text := if |tags| > 5 then shown + " (+" + IntToString(|tags| - 5) + " more)" else shown;
    if text == "" then NoneText else text
  }

  /** What the Tags line shows, case by case: more than five tags show the first five
      (which begin the full list) and the count of the rest; up to five show them all;
      no tags, or one empty tag, show None. */
  lemma TagsValueCases(tags: seq<string>)
    ensures |tags| > 5 ==>
      TagsValue(tags) == Join(", ", tags[..5]) + " (+" + IntToString(|tags| - 5) + " more)"
    ensures |tags| > 5 ==> Join(", ", tags[..5]) <= Join(", ", tags)
    ensures |tags| <= 5 && tags != [] && tags != [""] ==> TagsValue(tags) == Join(", ", tags)
    ensures tags == [] || tags == [""] ==> TagsValue(tags) == NoneText
  {
    if |tags| > 5 {
      JoinPrefix(", ", tags, 5);
    } else {
      assert tags[..|tags|] == tags;
      JoinEmpty(", ", tags);
    }
  }

  /** The message cut to 100 characters plus "..." when longer, then with every line
      feed made a space. */
  function MessageText(message: string): (r: string)
    ensures '\n' !in r
    ensures |message| > 100 ==> |r| == 103 && r[100..] == "..."
    ensures |message| <= 100 ==> |r| == |message|
    ensures forall i :: 0 <= i < |message| && i < 100 ==>
      r[i] == (if message[i] == '\n' then ' ' else message[i])
  {
    var truncated := if |message| > 100 then message[..100] + "..." else message;
    ReplaceNewlines(truncated)
  }

  /** The Message value: the cut message, or None when it is empty. */
  function MessageValue(message: string): (r: string)
    ensures '\n' !in r && |r| <= 103
    ensures message == "" ==> r == NoneText
    ensures message != "" ==> r == MessageText(message)
  {
    var text := MessageText(message);
    if text == "" then NoneText else text
  }

  /** The eight values the table shows, as text. */
  datatype TableValues = TableValues(
    id: string, name: string, monitorType: string, state: string,
    priority: string, tags: string, query: string, message: string)

  /** Each key read with `monitor.get(key, default)` and formatted, for a record whose
      tags and message are not null. */
  function ValuesOf(monitorId: int, m: Monitor): TableValues
    requires !m.tags.Null? && !m.message.Null?
  {
    TableValues(
      IntToString(monitorId),
      Show(m.name.GetOr("Unnamed")),
      Show(m.monitorType.GetOr("unknown")),
      Show(m.overallState.GetOr("unknown")),
      PriorityText(m.priority),
      TagsValue(m.tags.GetOr([]).value),
      Show(m.query.GetOr("N/A")),
      MessageValue(m.message.GetOr("").value))
  }

  /** The fixed layout: the title, the rule, a blank line, then the eight labelled
      lines in the order ID, Name, Type, State, Priority, Tags, Query, Message. */
  function Layout(v: TableValues): seq<string> {
    [ Title,
      Rule,
      "",
      "ID:       " + v.id,
      "Name:     " + v.name,
      "Type:     " + v.monitorType,
      "State:    " + v.state,
      "Priority: " + v.priority,
      "Tags:     " + v.tags,
      "Query:    " + v.query,
      "Message:  " + v.message ]
  }

  /** The per-key defaults: a missing key shows its default, a null one None and a
      present one its value; the ID value reads back as the requested id. */
  lemma ValuesShowDefaults(monitorId: int, m: Monitor)
    requires !m.tags.Null? && !m.message.Null?
    ensures var v := ValuesOf(monitorId, m);
      && ParseInt(v.id) == Some(monitorId)
      && (m.name.Absent? ==> v.name == "Unnamed")
      && (m.monitorType.Absent? ==> v.monitorType == "unknown")
      && (m.overallState.Absent? ==> v.state == "unknown")
      && (m.priority.Absent? ==> v.priority == "N/A")
      && (m.query.Absent? ==> v.query == "N/A")
      && (m.tags.Absent? ==> v.tags == NoneText)
      && (m.message.Absent? ==> v.message == NoneText)
    ensures var v := ValuesOf(monitorId, m);
      && (m.name.Null? ==> v.name == NoneText)
      && (m.monitorType.Null? ==> v.monitorType == NoneText)
      && (m.overallState.Null? ==> v.state == NoneText)
      && (m.priority.Null? ==> v.priority == NoneText)
      && (m.query.Null? ==> v.query == NoneText)
    ensures var v := ValuesOf(monitorId, m);
      && (m.name.Present? ==> v.name == m.name.value)
      && (m.monitorType.Present? ==> v.monitorType == m.monitorType.value)
      && (m.overallState.Present? ==> v.state == m.overallState.value)
      && (m.query.Present? ==> v.query == m.query.value)
  {
    ParseIntToString(monitorId);
    var empty: seq<string> := [];
    assert empty[..0] == [];
  }

  /** The layout's shape: eleven lines, the title, rule and blank line first, and
      every value starting in the same column, after a ten-character caption ending
      in a space. */
  lemma LayoutColumns(v: TableValues)
    ensures var r := Layout(v);
      |r| == 11 && r[..3] == [Title, Rule, ""] &&
      (forall i :: 3 <= i < 11 ==> |r[i]| >= 10 && r[i][9] == ' ')
    ensures var r := Layout(v);
      [r[3][10..], r[4][10..], r[5][10..], r[6][10..], r[7][10..], r[8][10..], r[9][10..], r[10][10..]] ==
      [v.id, v.name, v.monitorType, v.state, v.priority, v.tags, v.query, v.message]
  {
  }

  /** Text whose first three lines are the title, the rule and a blank line begins
      with the table header. */
  lemma TableHeader(lines: seq<string>)
    requires |lines| >= 3 && lines[0] == Title && lines[1] == Rule && lines[2] == ""
    ensures Header <= Unlines(lines)
  {
    assert lines[..3] == [lines[0], lines[1], lines[2]];
    UnlinesOfThree(lines[0], lines[1], lines[2]);
    UnlinesPrefix(lines, 3);
  }

  /** The table text; reading a null tags or message key raises inside the handler
      (the tags are read first). */
  function RenderTable(monitorId: int, m: Monitor): (r: Outcome<string>)
    ensures r.Fail? <==> m.tags.Null? || m.message.Null?
    ensures r.Ok? ==> Header <= r.value
  {
    if m.tags.Null? then Fail(OtherError(NotSubscriptableText))
    else if m.message.Null? then Fail(OtherError(NoLenText))
    else
      var lines := Layout(ValuesOf(monitorId, m));
      TableHeader(lines);
      Ok(Unlines(lines))
  }

  /** Handles one get_monitor call. `outcome` is what the remote fetch does if it is called. */
  function HandleCall(arguments: Option<GetArgs>, outcome: Outcome<Monitor>): (r: Response)
    // the fetch happens exactly when monitor_id is given, and with that id
    ensures r.fetched.Some? <==> ArgsOf(arguments).monitorId.Present?
    ensures r.fetched.Some? ==> r.fetched.value == ArgsOf(arguments).monitorId.value
    ensures r.fetched.None? ==> r.result == ErrorReply(MissingIdText)
    ensures r.fetched.Some? && outcome.Fail? ==> r.result == ErrorReply(ErrorText(outcome.failure))
    // an exception while rendering the table reads "Error: " followed by its message
    ensures (r.fetched.Some? && outcome.Ok? && !WantsJson(ArgsOf(arguments)) &&
             RenderTable(r.fetched.value, outcome.value).Fail?) ==>
        r.result == ErrorReply("Error: " + RenderTable(r.fetched.value, outcome.value).failure.msg)
    // only format "json" gives JSON; any other successful result is the table
    ensures r.result.content.Json? <==>
      (r.fetched.Some? && outcome.Ok? && ArgsOf(arguments).format == Present("json"))
    ensures r.result.content.Json? ==> r.result == ToolResult(Json(outcome.value), false)
    ensures !r.result.isError && r.result.content.Text? ==>
      r.fetched.Some? && outcome.Ok? && RenderTable(r.fetched.value, outcome.value) == Ok(r.result.content.text)
    ensures !r.result.isError && r.result.content.Text? ==> Header <= r.result.content.text
    ensures r.result.isError <==>
      (r.fetched.None? || outcome.Fail? ||
       (!WantsJson(ArgsOf(arguments)) && RenderTable(r.fetched.value, outcome.value).Fail?))
  {
    var a := ArgsOf(arguments);
    var monitorId := a.monitorId.Get();
    if monitorId.None? then Response(ErrorReply(MissingIdText), None)
    else
      var fetched := Some(monitorId.value);
      match outcome
      case Fail(failure) => Response(ErrorReply(ErrorText(failure)), fetched)
      case Ok(monitor) =>
        if WantsJson(a) then Response(ToolResult(Json(monitor), false), fetched)
        else
          match RenderTable(monitorId.value, monitor)
          case Ok(text) => Response(ToolResult(Text(text), false), fetched)
          case Fail(failure) => Response(ErrorReply(ErrorText(failure)), fetched)
  }

  /** Neither a string key nor any tag of `m` holds a line feed. */
  predicate NoLineFeeds(m: Monitor) {
    && (m.name.Present? ==> '\n' !in m.name.value)
    && (m.monitorType.Present? ==> '\n' !in m.monitorType.value)
    && (m.overallState.Present? ==> '\n' !in m.overallState.value)
    && (m.query.Present? ==> '\n' !in m.query.value)
    && (m.tags.Present? ==> forall i :: 0 <= i < |m.tags.value| ==> '\n' !in m.tags.value[i])
  }

  predicate ValuesOnOneLine(v: TableValues) {
    && '\n' !in v.id && '\n' !in v.name && '\n' !in v.monitorType && '\n' !in v.state
    && '\n' !in v.priority && '\n' !in v.tags && '\n' !in v.query && '\n' !in v.message
  }

  /** A string key shown with default `d` (its value when present, `d` when missing,
      None when null) has no line feed when neither the value nor `d` has one. */
  lemma ShownOnOneLine(f: Field<string>, d: string)
    requires f.Present? ==> '\n' !in f.value
    requires '\n' !in d
    ensures '\n' !in Show(f.GetOr(d))
  {
    assert '\n' !in NoneText;
  }

  /** Tags without line feeds give a Tags value without one. */
  lemma TagsValueOneLine(tags: seq<string>)
    requires forall i :: 0 <= i < |tags| ==> '\n' !in tags[i]
    ensures '\n' !in TagsValue(tags)
  {
    var shown := tags[..if |tags| < 5 then |tags| else 5];
    assert forall i :: 0 <= i < |shown| ==> shown[i] == tags[i];
    JoinNoNewline(", ", shown);
    assert '\n' !in " (+" && '\n' !in " more)" && '\n' !in NoneText;
  }

  /** Under NoLineFeeds, none of the eight values holds a line feed. */
  lemma ValuesAreOneLine(monitorId: int, m: Monitor)
    requires !m.tags.Null? && !m.message.Null? && NoLineFeeds(m)
    ensures ValuesOnOneLine(ValuesOf(monitorId, m))
  {
    ShownOnOneLine(m.name, "Unnamed");
    ShownOnOneLine(m.monitorType, "unknown");
    ShownOnOneLine(m.overallState, "unknown");
    ShownOnOneLine(m.query, "N/A");
    var tags := m.tags.GetOr([]).value;
    assert forall i :: 0 <= i < |tags| ==> '\n' !in tags[i];
    TagsValueOneLine(tags);
    assert '\n' !in PriorityText(m.priority) by {
      assert '\n' !in "N/A" && '\n' !in NoneText;
    }
  }

  /** Values on one line give a layout whose every line is free of line feeds. */
  lemma LayoutIsLines(v: TableValues)
    requires ValuesOnOneLine(v)
    ensures forall i :: 0 <= i < |Layout(v)| ==> '\n' !in Layout(v)[i]
  {
    assert '\n' !in Title && '\n' !in Rule;
    assert '\n' !in "ID:       " && '\n' !in "Name:     " && '\n' !in "Type:     ";
    assert '\n' !in "State:    " && '\n' !in "Priority: " && '\n' !in "Tags:     ";
    assert '\n' !in "Query:    " && '\n' !in "Message:  ";
  }

  /** When no key holds a line feed, the table splits into exactly its title, rule,
      blank line and the eight labelled lines in order, and nothing after the last
      line feed. */
  lemma TableLayout(monitorId: int, m: Monitor)
    requires !m.tags.Null? && !m.message.Null? && NoLineFeeds(m)
    ensures RenderTable(monitorId, m) == Ok(Unlines(Layout(ValuesOf(monitorId, m))))
    ensures Lines(Unlines(Layout(ValuesOf(monitorId, m)))) == Layout(ValuesOf(monitorId, m)) + [""]
  {
    ValuesAreOneLine(monitorId, m);
    LayoutIsLines(ValuesOf(monitorId, m));
    LinesUnlines(Layout(ValuesOf(monitorId, m)));
  }

  /** Whatever the other keys hold, the last line of the table is the whole Message
      line: the message never spills onto another line. */
  lemma MessageLineIntact(monitorId: int, m: Monitor)
    requires !m.tags.Null? && !m.message.Null?
    ensures RenderTable(monitorId, m).Ok?
    ensures var r := Lines(RenderTable(monitorId, m).value);
      |r| >= 2 && r[|r| - 1] == "" &&
      r[|r| - 2] == "Message:  " + MessageValue(m.message.GetOr("").value)
  {
    assert '\n' !in "Message:  ";
    LinesUnlinesLast(Layout(ValuesOf(monitorId, m)));
  }

  /** A record with none of the keys shows every default. */
  lemma AbsentKeysShowDefaults(monitorId: int, id: Field<int>)
    ensures var m := Monitor(id, Absent, Absent, Absent, Absent, Absent, Absent, Absent);
      RenderTable(monitorId, m).Ok? &&
      Lines(RenderTable(monitorId, m).value) ==
        [ Title, Rule, "", "ID:       " + IntToString(monitorId),
          "Name:     " + "Unnamed", "Type:     " + "unknown", "State:    " + "unknown",
          "Priority: " + "N/A", "Tags:     " + "None", "Query:    " + "N/A",
          "Message:  " + "None", "" ]
  {
    var m := Monitor(id, Absent, Absent, Absent, Absent, Absent, Absent, Absent);
    TableLayout(monitorId, m);
  }

  /** Keys present with null show None rather than their defaults. */
  lemma NullKeysShowNone(monitorId: int, m: Monitor)
    requires m.name.Null? && m.monitorType.Null? && m.overallState.Null? && m.priority.Null? && m.query.Null?
    requires m.tags.Absent? && !m.message.Null?
    ensures RenderTable(monitorId, m).Ok?
    ensures var r := Lines(RenderTable(monitorId, m).value);
      |r| == 12 &&
      r[4..10] == ["Name:     " + NoneText, "Type:     " + NoneText, "State:    " + NoneText,
                   "Priority: " + NoneText, "Tags:     " + NoneText, "Query:    " + NoneText]
  {
    TableLayout(monitorId, m);
    var v := ValuesOf(monitorId, m);
    assert v.tags == NoneText by {
      var empty: seq<string> := [];
      assert empty[..0] == [];
    }
    assert v.name == NoneText && v.monitorType == NoneText && v.state == NoneText;
    assert v.priority == NoneText && v.query == NoneText;
  }

  /** The values of the handler's test record; TableLayout puts each on its own line. */
  lemma CpuHighAlertTable(m: Monitor)
    requires m.name == Present("CPU High Alert") && m.monitorType == Present("metric alert")
    requires m.overallState == Present("OK")
    requires m.tags == Present(["env:prod", "team:backend"]) && m.message.Present?
    ensures RenderTable(12345, m) == Ok(Unlines(Layout(ValuesOf(12345, m))))
    ensures var v := ValuesOf(12345, m);
      v.id == "12345" && v.name == "CPU High Alert" && v.monitorType == "metric alert" &&
      v.state == "OK"
  {
    assert IntToString(12345) == "12345";
  }

  /** The handler's test call: with format "table" the reply is that table and no error. */
  lemma CpuHighAlertScenario(m: Monitor)
    requires m.name == Present("CPU High Alert") && m.monitorType == Present("metric alert")
    requires m.overallState == Present("OK")
    requires m.tags == Present(["env:prod", "team:backend"]) && m.message.Present?
    requires NoLineFeeds(m)
    ensures var r := HandleCall(Some(GetArgs(Present(12345), Present("table"))), Ok(m));
      r.fetched == Some(12345) && !r.result.isError &&
      r.result.content == Text(RenderTable(12345, m).value)
  {
    CpuHighAlertTable(m);
    assert !WantsJson(GetArgs(Present(12345), Present("table")));
  }

  /** The five shown tags of the seven-tag example, joined. */
  lemma JoinFiveTags()
    ensures Join(", ", ["a", "b", "c", "d", "e"]) == "a, b, c, d, e"
  {
    assert Join(", ", ["d", "e"]) == "d, e" by {
      assert ["d", "e"][1..] == ["e"];
    }
    assert Join(", ", ["c", "d", "e"]) == "c, d, e" by {
      assert ["c", "d", "e"][1..] == ["d", "e"];
    }
    assert Join(", ", ["b", "c", "d", "e"]) == "b, c, d, e" by {
      assert ["b", "c", "d", "e"][1..] == ["c", "d", "e"];
    }
    assert ["a", "b", "c", "d", "e"][1..] == ["b", "c", "d", "e"];
  }

  /** Seven tags show the first five and "(+2 more)". */
  lemma SevenTagsScenario()
    ensures TagsValue(["a", "b", "c", "d", "e", "f", "g"]) == "a, b, c, d, e" + " (+" + "2" + " more)"
  {
    var tags := ["a", "b", "c", "d", "e", "f", "g"];
    TagsValueCases(tags);
    assert tags[..5] == ["a", "b", "c", "d", "e"];
    JoinFiveTags();
    assert IntToString(2) == "2";
  }
}

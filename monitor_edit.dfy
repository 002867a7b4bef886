/** The monitor_edit tool: validate the arguments in a fixed order, build the
    update patch from the optional fields, issue one update, and turn its
    outcome into a result. */
module MonitorEdit {
  import opened Fields
  import opened Strings
  import opened Remote
  import opened Results

  /** The arguments of a monitor_edit call. */
  datatype EditArgs = EditArgs(
    monitorId: Field<int>,
    name: Field<string>,
    message: Field<string>,
    tags: Field<seq<string>>,
    priority: Field<int>)

  /** `request.arguments or {}`: missing arguments read as an empty object. */
  function ArgsOf(arguments: Option<EditArgs>): (a: EditArgs)
    ensures arguments.None? ==> a == EditArgs(Absent, Absent, Absent, Absent, Absent)
    ensures arguments.Some? ==> a == arguments.value
  {
    arguments.GetOr(EditArgs(Absent, Absent, Absent, Absent, Absent))
  }

  /** A value in the update patch, one constructor per field type. */
  datatype PatchValue = StringValue(s: string) | TagsValue(tags: seq<string>) | IntValue(i: int)

  /** The one call made to the remote update: `update_monitor(monitor_id, **updates)`. */
  datatype UpdateCall = UpdateCall(monitorId: int, updates: map<string, PatchValue>)

  const InvalidPriorityText := "Invalid priority: must be 1-5"
  const NoFieldsText := "At least one field to update is required"
  const PatchKeys: set<string> := {"name", "message", "tags", "priority"}

  /** `priority is not None and (priority < 1 or priority > 5)` */
  predicate PriorityOutOfRange(a: EditArgs)
    ensures !PriorityOutOfRange(a) <==> a.priority.Get().None? || 1 <= a.priority.value <= 5
  {
    a.priority.Present? && (a.priority.value < 1 || a.priority.value > 5)
  }

  /** Some optional field is present and not null (an empty string or list counts). */
  predicate AnyFieldGiven(a: EditArgs)
    ensures !AnyFieldGiven(a) <==>
      a.name.Get().None? && a.message.Get().None? && a.tags.Get().None? && a.priority.Get().None?
  {
    a.name.Present? || a.message.Present? || a.tags.Present? || a.priority.Present?
  }

  /** `u` holds exactly the optional fields of `a` that are present and not null,
      each under its own key with its value unchanged, and no other key. */
  predicate IsPatchOf(a: EditArgs, u: map<string, PatchValue>)
    ensures IsPatchOf(a, u) ==> (u == map[] <==> !AnyFieldGiven(a))
  {
    && u.Keys <= PatchKeys
    && ("name" in u <==> a.name.Present?)
    && (a.name.Present? ==> u["name"] == StringValue(a.name.value))
    && ("message" in u <==> a.message.Present?)
    && (a.message.Present? ==> u["message"] == StringValue(a.message.value))
    && ("tags" in u <==> a.tags.Present?)
    && (a.tags.Present? ==> u["tags"] == TagsValue(a.tags.value))
    && ("priority" in u <==> a.priority.Present?)
    && (a.priority.Present? ==> u["priority"] == IntValue(a.priority.value))
  }

  /** IsPatchOf pins the patch down: two patches of the same arguments are equal. */
  lemma PatchIsUnique(a: EditArgs, u: map<string, PatchValue>, v: map<string, PatchValue>)
    requires IsPatchOf(a, u) && IsPatchOf(a, v)
    ensures u == v
  {
    forall k | k in u
      ensures k in v && u[k] == v[k]
    {
      assert k in PatchKeys;
    }
    assert u.Keys == v.Keys;
  }

  /** Builds the patch by conditional insertions into an initially empty map. */
  method BuildUpdates(a: EditArgs) returns (updates: map<string, PatchValue>)
    ensures IsPatchOf(a, updates)
    ensures updates == map[] <==> !AnyFieldGiven(a)
  {
    updates := map[];
    if a.name.Present? {
      updates := updates["name" := StringValue(a.name.value)];
    }
    if a.message.Present? {
      updates := updates["message" := StringValue(a.message.value)];
    }
    if a.tags.Present? {
      updates := updates["tags" := TagsValue(a.tags.value)];
    }
    if a.priority.Present? {
      updates := updates["priority" := IntValue(a.priority.value)];
    }
  }

  /** Handles one monitor_edit call. `outcome` is what the remote update does if it is
      called; `call` says whether it was called and with what. */
  method HandleCall(arguments: Option<EditArgs>, outcome: Outcome<Monitor>)
    returns (result: ToolResult, call: Option<UpdateCall>)
    // 1. a missing or null monitor_id is reported first
    ensures var a := ArgsOf(arguments);
      !a.monitorId.Present? ==> result == ErrorReply(MissingIdText) && call == None
    // 2. then a priority outside [1, 5]
    ensures var a := ArgsOf(arguments);
      a.monitorId.Present? && PriorityOutOfRange(a) ==>
        result == ErrorReply(InvalidPriorityText) && call == None
    // 3. then an empty patch
    ensures var a := ArgsOf(arguments);
      a.monitorId.Present? && !PriorityOutOfRange(a) && !AnyFieldGiven(a) ==>
        result == ErrorReply(NoFieldsText) && call == None
    // the update is issued exactly when all three checks pass, with the exact patch
    ensures var a := ArgsOf(arguments);
      call.Some? <==> a.monitorId.Present? && !PriorityOutOfRange(a) && AnyFieldGiven(a)
    ensures var a := ArgsOf(arguments);
      call.Some? ==> call.value.monitorId == a.monitorId.value && IsPatchOf(a, call.value.updates)
    // the outcome of the update decides the result
    ensures call.Some? && outcome.Ok? ==>
      result == ToolResult(Text("Monitor " + IntToString(call.value.monitorId) + " updated successfully"), false)
    ensures call.Some? && outcome.Fail? ==> result == ErrorReply(ErrorText(outcome.failure))
  {
    var a := ArgsOf(arguments);
    call := None;
    var monitorId := a.monitorId.Get();
    if monitorId.None? {
      return ErrorReply(MissingIdText), call;
    }
    if PriorityOutOfRange(a) {
      return ErrorReply(InvalidPriorityText), call;
    }
    var updates := BuildUpdates(a);
    if updates == map[] {
      return ErrorReply(NoFieldsText), call;
    }
    call := Some(UpdateCall(monitorId.value, updates));
    match outcome
    case Ok(_) =>
      result := ToolResult(Text("Monitor " + IntToString(monitorId.value) + " updated successfully"), false);
    case Fail(failure) =>
      result := ErrorReply(ErrorText(failure));
  }

  /** The call of the handler's tests with a priority of 1: it reports success. */
  method PriorityOneScenario(record: Monitor)
  {
    var args := EditArgs(Present(12345), Absent, Absent, Absent, Present(1));
    var result, call := HandleCall(Some(args), Ok(record));
    assert ArgsOf(Some(args)) == args;
    assert call.Some? && call.value.monitorId == 12345;
    assert IntToString(12345) == "12345";
    assert result == ToolResult(Text("Monitor " + "12345" + " updated successfully"), false);
  }

  /** The same call updates exactly the priority key, to 1. */
  method PriorityOnePatchScenario(record: Monitor)
  {
    var args := EditArgs(Present(12345), Absent, Absent, Absent, Present(1));
    var result, call := HandleCall(Some(args), Ok(record));
    assert ArgsOf(Some(args)) == args;
    assert call.Some?;
    PatchIsUnique(args, call.value.updates, map["priority" := IntValue(1)]);
    assert call == Some(UpdateCall(12345, map["priority" := IntValue(1)]));
  }

  /** An empty name still counts as a field to update. */
  method EmptyNameScenario(record: Monitor)
  {
    var args := EditArgs(Present(12345), Present(""), Absent, Absent, Absent);
    var result, call := HandleCall(Some(args), Ok(record));
    assert ArgsOf(Some(args)) == args;
    assert !result.isError && call.Some?;
  }

  /** A missing monitor_id is reported before a priority of 0, and no update is made. */
  method MissingIdFirstScenario(record: Monitor)
  {
    var args := EditArgs(Absent, Absent, Absent, Absent, Present(0));
    var result, call := HandleCall(Some(args), Ok(record));
    assert ArgsOf(Some(args)) == args;
    assert result == ErrorReply("Error: monitor_id is required") && call == None;
  }
}

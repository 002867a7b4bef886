/** The result a tool call returns, and the error classification both tools share. */
module Results {
  import opened Remote

  /** The text block of a result; `Json` stands for `json.dumps(record, indent=2)`. */
  datatype Content = Text(text: string) | Json(record: Monitor)

  /** One content block and the `isError` flag. */
  datatype ToolResult = ToolResult(content: Content, isError: bool)

  const MissingIdText := "Error: monitor_id is required"
  const NotFoundText := "Monitor not found"
  const PermissionDeniedText := "Permission denied"

  /** A failed result carrying `text`. */
  function ErrorReply(text: string): ToolResult {
    ToolResult(Text(text), true)
  }

  /** How a handler's `except` clauses read an exception. */
  datatype ErrorKind = NotFound | PermissionDenied | Unclassified

  function Classify(f: Failure): (k: ErrorKind)
    ensures k == NotFound <==> f.HttpStatusError? && f.status == 404
    ensures k == PermissionDenied <==> f.HttpStatusError? && f.status == 403
    ensures k == Unclassified <==> !(f.HttpStatusError? && f.status in {403, 404})
  {
    match f
    case HttpStatusError(status, _) =>
      if status == 404 then NotFound
      else if status == 403 then PermissionDenied
      else Unclassified
    case OtherError(_) => Unclassified
  }

  /** The text of the failed result for exception `f`. */
  function ErrorText(f: Failure): (r: string)
    ensures r == NotFoundText || r == PermissionDeniedText || "Error: " <= r
  {
    match Classify(f)
    case NotFound => NotFoundText
    case PermissionDenied => PermissionDeniedText
    case Unclassified => "Error: " + f.msg
  }

  /** The three error texts cannot be confused: "Monitor not found" and
      "Permission denied" come from exactly the 404 and 403 statuses (no
      exception message can produce them), and everything else reads
      "Error: " followed by the exception's message. */
  lemma ErrorTextCases(f: Failure)
    ensures ErrorText(f) == NotFoundText <==> f.HttpStatusError? && f.status == 404
    ensures ErrorText(f) == PermissionDeniedText <==> f.HttpStatusError? && f.status == 403
    ensures !(f.HttpStatusError? && f.status in {403, 404}) ==> ErrorText(f) == "Error: " + f.msg
  {
    if Classify(f) == Unclassified {
      var s := ErrorText(f);
      assert s[0] == 'E';
      assert NotFoundText[0] == 'M' && PermissionDeniedText[0] == 'P';
    }
  }
}

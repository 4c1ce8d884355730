/** call_reverso (api.py): run the Node helper on a request envelope and turn
    how it ended into a payload. Running the process and parsing JSON text are
    parameters: `run` says how the process ends for an envelope, `parse` is
    `json.loads` (None when the text is not JSON). */
module Adapter {
  import opened Payload
  import opened PyStrings

  /** The request written to the helper's standard input. */
  datatype Envelope = Envelope(text: string, from: string, to: string, mode: string)

  /** How a run of `node reverso_helper.js` ends: it exits with a return code
      and its captured output, or `node` cannot be found. */
  datatype ProcessOutcome =
    | Exited(returnCode: int, stdout: string, stderr: string)
    | NodeNotFound

  /** What call_reverso does: return a payload, or let the JSON decode error
      of a clean exit's unparsable stdout escape. */
  datatype Call = Returned(payload: Json) | StdoutNotJson

  const UnknownError := "Unknown error"
  const NodeMissingMessage := "Node.js not found. Ensure 'node' is on PATH."

  /** The `{"ok": False, "message": m}` payload call_reverso synthesises. */
  function FailurePayload(message: string): Json
  {
    Obj(map["ok" := Bool(false), "message" := Str(message)])
  }

  /** A payload that reports failure (`ok` is falsy) and carries a non-empty,
      already stripped message. */
  predicate IsFailurePayload(j: Json)
  {
    j.Obj? && !Truthy(Get(j.fields, "ok")) &&
    Get(j.fields, "message").Str? &&
    var m := Get(j.fields, "message").s;
    m != "" && Strip(m) == m
  }

  /** call_reverso(text, source, target, mode). */
  function CallReverso(text: string, source: string, target: string, mode: string,
                       run: Envelope -> ProcessOutcome, parse: string -> Option<Json>): (c: Call)
    ensures var o := run(Envelope(text, source, target, mode));
      (c.StdoutNotJson? <==> o.Exited? && o.returnCode == 0 && parse(o.stdout).None?) &&
      (o.Exited? && o.returnCode == 0 && parse(o.stdout).Some? ==> c == Returned(parse(o.stdout).value)) &&
      (o.Exited? && o.returnCode != 0 && parse(o.stderr).Some? ==> c == Returned(parse(o.stderr).value)) &&
      (o.Exited? && o.returnCode != 0 && parse(o.stderr).None? ==>
         c == Returned(FailurePayload(if Strip(o.stderr) != "" then Strip(o.stderr) else UnknownError)) &&
         IsFailurePayload(c.payload)) &&
      (o.NodeNotFound? ==> c == Returned(FailurePayload(NodeMissingMessage)) && IsFailurePayload(c.payload))
  {
    match run(Envelope(text, source, target, mode))
    case NodeNotFound =>
      StripOfTrimmed(NodeMissingMessage);
      Returned(FailurePayload(NodeMissingMessage))
    case Exited(code, out, err) =>
      if code == 0 then
        match parse(out)
        case Some(j) => Returned(j)
        case None => StdoutNotJson
      else
        match parse(err)
        case Some(j) => Returned(j)
        case None =>
          var m := Strip(err);
          StripIdempotent(err);
          StripOfTrimmed(UnknownError);
          Returned(FailurePayload(if m != "" then m else UnknownError))
  }
}

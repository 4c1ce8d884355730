/** translate_ro_de (api.py): the POST /translate-ro-de handler. It asks the
    helper for a direct translation, and falls back once to context mode. */
module Orchestrator {
  import opened Payload
  import opened PyStrings
  import opened Search
  import opened Heuristics
  import opened Adapter

  const Source := "romanian"
  const Target := "german"
  const TranslationMode := "translation"
  const ContextMode := "context"
  /** The single key of a success's `details`. */
  const RawKey := "ro_de_raw"
  const FailedPrefix := "RO→DE failed: "
  const NoCandidateDetail := "RO→DE returned no usable German candidate (context)."

  /** TranslateResponse. */
  datatype Response = Response(input: string, outputLanguage: string, outputWord: string,
                               sourceLanguage: string, strategy: string, details: map<string, Json>)

  /** An exception the handler lets escape (the framework answers 500): the
      JSON decode error of call_reverso, or `.get` on a payload that is not a
      dict. */
  datatype Crash = MalformedStdout | NotADict

  /** How one request ends: a response, an HTTPException, or a crash. */
  datatype Outcome =
    | Ok(response: Response)
    | HttpError(status: int, detail: string)
    | Unhandled(crash: Crash)

  /** The outcome, and the modes call_reverso was invoked with, in order. */
  datatype Handled = Handled(outcome: Outcome, modes: seq<string>)

  /** `t.get('message', 'Unknown error')`: the stored value, even a null, when
      the key is present. */
  function MessageOrDefault(t: map<string, Json>): Json
  {
    if "message" in t then t["message"] else Str(UnknownError)
  }

  /** `str(v)` inside an f-string: strings as they are, ints in decimal, None,
      True and False by name; `format` stands for Python's rendering of
      floats, lists and dicts. */
  function PyStr(v: Json, format: Json -> string): string
  {
    match v
    case Str(s) => s
    case Int(i) => IntStr(i)
    case Null => "None"
    case Bool(b) => if b then "True" else "False"
    case _ => format(v)
  }

  /** The direct stage succeeds: the payload is a dict whose `ok` is truthy
      and pick_top_from_translation gives a non-empty string. */
  predicate DirectSucceeds(c: Call)
  {
    c.Returned? && c.payload.Obj? && Truthy(Get(c.payload.fields, "ok")) &&
    PickTopFromTranslation(c.payload.fields).Some? && PickTopFromTranslation(c.payload.fields).value != ""
  }

  /** Every success: the request's word as input, German out, Romanian in, a
      non-empty word, and `details` holding exactly the payload it came from,
      a payload that reported `ok` and whose heuristic for the recorded
      strategy gives that word. */
  ghost predicate ValidSuccess(word: string, r: Response)
  {
    r.input == word && r.outputLanguage == Target && r.sourceLanguage == Source &&
    r.outputWord != "" && r.details.Keys == {RawKey} && r.details[RawKey].Obj? &&
    var t := r.details[RawKey].fields;
    Truthy(Get(t, "ok")) &&
    ((r.strategy == TranslationMode && PickTopFromTranslation(t) == Some(r.outputWord)) ||
     (r.strategy == ContextMode && TopFromContext(t) == Some(r.outputWord) && Strip(r.outputWord) == r.outputWord))
  }

  /** translate_ro_de(req) for `req.word == word`. */
  function TranslateRoDe(word: string, run: Envelope -> ProcessOutcome, parse: string -> Option<Json>,
                         format: Json -> string): (h: Handled)
    ensures h.modes == [TranslationMode] || h.modes == [TranslationMode, ContextMode]
    ensures h.outcome.Ok? ==> ValidSuccess(word, h.outcome.response)
    ensures h.outcome.HttpError? ==> h.outcome.status == 502 && h.modes == [TranslationMode, ContextMode]
    ensures h.outcome.Ok? ==>
      h.modes == (if h.outcome.response.strategy == TranslationMode then [TranslationMode]
                  else [TranslationMode, ContextMode])
  {
    match CallReverso(word, Source, Target, TranslationMode, run, parse)
    case StdoutNotJson => Handled(Unhandled(MalformedStdout), [TranslationMode])
    case Returned(j1) =>
      if !j1.Obj? then Handled(Unhandled(NotADict), [TranslationMode])
      else
        var t1 := j1.fields;
        var out := if Truthy(Get(t1, "ok")) then PickTopFromTranslation(t1) else None;
        if out.Some? && out.value != "" then
          Handled(Ok(Response(word, Target, out.value, Source, TranslationMode, map[RawKey := j1])), [TranslationMode])
        else
          var modes := [TranslationMode, ContextMode];
          match CallReverso(word, Source, Target, ContextMode, run, parse)
          case StdoutNotJson => Handled(Unhandled(MalformedStdout), modes)
          case Returned(j2) =>
            if !j2.Obj? then Handled(Unhandled(NotADict), modes)
            else
              var t2 := j2.fields;
              if !Truthy(Get(t2, "ok")) then
                Handled(HttpError(502, FailedPrefix + PyStr(MessageOrDefault(t2), format)), modes)
              else
                var out2 := TopFromContext(t2);
                if out2.None? || out2.value == "" then Handled(HttpError(502, NoCandidateDetail), modes)
                else Handled(Ok(Response(word, Target, out2.value, Source, ContextMode, map[RawKey := j2])), modes)
  }

  // ---------------------------------------------------------------------------
  // The two-stage fallback

  /** The handler answers with strategy "translation" exactly when the direct
      stage succeeds. */
  lemma DirectStrategyIff(word: string, run: Envelope -> ProcessOutcome, parse: string -> Option<Json>,
                          format: Json -> string)
    ensures var c1, h := CallReverso(word, Source, Target, TranslationMode, run, parse),
                         TranslateRoDe(word, run, parse, format);
      h.outcome.Ok? && h.outcome.response.strategy == TranslationMode <==> DirectSucceeds(c1)
  {
    if DirectSucceeds(CallReverso(word, Source, Target, TranslationMode, run, parse)) {
      DirectSuccessAnswer(word, run, parse, format);
    } else {
      assert |ContextMode| != |TranslationMode|;
    }
  }

  /** A successful direct stage is the answer: its pick as the word, its
      payload as the details, and context mode never invoked. */
  lemma DirectSuccessAnswer(word: string, run: Envelope -> ProcessOutcome, parse: string -> Option<Json>,
                            format: Json -> string)
    requires DirectSucceeds(CallReverso(word, Source, Target, TranslationMode, run, parse))
    ensures var j1 := CallReverso(word, Source, Target, TranslationMode, run, parse).payload;
      TranslateRoDe(word, run, parse, format) ==
        Handled(Ok(Response(word, Target, PickTopFromTranslation(j1.fields).value, Source, TranslationMode,
                            map[RawKey := j1])), [TranslationMode])
  {
  }

  /** Context mode is invoked, once and after direct mode, exactly when the
      direct stage returned a dict and did not succeed. */
  lemma ContextInvokedIff(word: string, run: Envelope -> ProcessOutcome, parse: string -> Option<Json>,
                          format: Json -> string)
    ensures var c1, h := CallReverso(word, Source, Target, TranslationMode, run, parse),
                         TranslateRoDe(word, run, parse, format);
      h.modes == [TranslationMode, ContextMode] <==>
        c1.Returned? && c1.payload.Obj? && !DirectSucceeds(c1)
  {
  }

  /** Once the direct stage has not succeeded, the context payload alone
      decides: not `ok` is a 502 carrying its message (or "Unknown error"),
      `ok` without a candidate is the fixed 502, and otherwise the stripped
      context pick is the answer. */
  lemma ContextStageOutcome(word: string, run: Envelope -> ProcessOutcome, parse: string -> Option<Json>,
                            format: Json -> string)
    requires var c1 := CallReverso(word, Source, Target, TranslationMode, run, parse);
      c1.Returned? && c1.payload.Obj? && !DirectSucceeds(c1)
    requires CallReverso(word, Source, Target, ContextMode, run, parse).Returned?
    requires CallReverso(word, Source, Target, ContextMode, run, parse).payload.Obj?
    ensures var t2, h := CallReverso(word, Source, Target, ContextMode, run, parse).payload.fields,
                         TranslateRoDe(word, run, parse, format);
      var modes := [TranslationMode, ContextMode];
      (!Truthy(Get(t2, "ok")) ==>
         h == Handled(HttpError(502, FailedPrefix + PyStr(MessageOrDefault(t2), format)), modes)) &&
      (Truthy(Get(t2, "ok")) && TopFromContext(t2).None? ==>
         h == Handled(HttpError(502, NoCandidateDetail), modes)) &&
      (Truthy(Get(t2, "ok")) && TopFromContext(t2).Some? ==>
         h == Handled(Ok(Response(word, Target, TopFromContext(t2).value, Source, ContextMode, map[RawKey := Obj(t2)])), modes))
  {
  }

  /** The handler lets an exception escape exactly when a stage's stdout is
      not JSON or its payload is not a dict, the context stage counting only
      when the direct stage did not succeed. The exception is the decode error
      exactly when it was a stdout that failed to parse. */
  lemma UnhandledIff(word: string, run: Envelope -> ProcessOutcome, parse: string -> Option<Json>,
                     format: Json -> string)
    ensures var c1, c2, h := CallReverso(word, Source, Target, TranslationMode, run, parse),
                             CallReverso(word, Source, Target, ContextMode, run, parse),
                             TranslateRoDe(word, run, parse, format);
      (h.outcome.Unhandled? <==>
         c1.StdoutNotJson? || !c1.payload.Obj? ||
         (!DirectSucceeds(c1) && (c2.StdoutNotJson? || !c2.payload.Obj?))) &&
      (h.outcome == Unhandled(MalformedStdout) <==>
         c1.StdoutNotJson? || (c1.payload.Obj? && !DirectSucceeds(c1) && c2.StdoutNotJson?))
  {
  }

  /** A failed context payload's message reaches the 502 detail verbatim when
      it is a string, and "Unknown error" stands in when it is absent. */
  lemma FailureDetailCarriesMessage(t2: map<string, Json>, format: Json -> string)
    ensures "message" !in t2 ==> FailedPrefix + PyStr(MessageOrDefault(t2), format) == FailedPrefix + UnknownError
    ensures "message" in t2 && t2["message"].Str? ==>
      FailedPrefix + PyStr(MessageOrDefault(t2), format) == FailedPrefix + t2["message"].s
  {
  }

  // ---------------------------------------------------------------------------
  // End-to-end scenarios. The helper "prints" the mode it was asked for, and
  // `Replies` parses that output into the payload scripted for the mode.

  /** A helper run that exits cleanly and echoes the requested mode. */
  function EchoMode(e: Envelope): ProcessOutcome
  {
    Exited(0, e.mode, "")
  }

  /** json.loads of the echoed mode: the scripted payload for it. */
  function Replies(direct: Json, context: Json): string -> Option<Json>
  {
    s => if s == TranslationMode then Some(direct) else if s == ContextMode then Some(context) else None
  }

  /** Each mode's call returns the payload scripted for it. */
  lemma EchoedReplies(word: string, direct: Json, context: Json)
    ensures CallReverso(word, Source, Target, TranslationMode, EchoMode, Replies(direct, context)) == Returned(direct)
    ensures CallReverso(word, Source, Target, ContextMode, EchoMode, Replies(direct, context)) == Returned(context)
  {
  }

  /** Python's rendering of non-string messages plays no part below. */
  function NoFormat(v: Json): string
  {
    ""
  }

  /** A direct hit: `{ok: true, result: {translation: ["Apfel"]}}` answers
      "Apfel" by strategy "translation" after one call. */
  lemma ScenarioDirectHit()
    ensures var direct := Obj(map["ok" := Bool(true), "result" := Obj(map["translation" := Arr([Str("Apfel")])])]);
      TranslateRoDe("măr", EchoMode, Replies(direct, Null), NoFormat) ==
        Handled(Ok(Response("măr", Target, "Apfel", Source, TranslationMode, map[RawKey := direct])), [TranslationMode])
  {
    var res := map["translation" := Arr([Str("Apfel")])];
    var t1 := map["ok" := Bool(true), "result" := Obj(res)];
    assert Unwrap(t1) == Obj(res);
    assert FromKey(res, TranslationKeys[0]) == Some("Apfel");
    FirstHitWins(TranslationKeys, k => FromKey(res, k), 0);
  }

  /** A barren direct payload (`translation: []`) falls back to context mode,
      whose `examples: [{translation: "Baum"}]` answers "Baum". */
  lemma ScenarioContextFallback()
    ensures var direct := Obj(map["ok" := Bool(true), "result" := Obj(map["translation" := Arr([])])]);
      var context := Obj(map["ok" := Bool(true), "result" := Obj(map["examples" := Arr([Obj(map["translation" := Str("Baum")])])])]);
      TranslateRoDe("copac", EchoMode, Replies(direct, context), NoFormat) ==
        Handled(Ok(Response("copac", Target, "Baum", Source, ContextMode, map[RawKey := context])),
                [TranslationMode, ContextMode])
  {
    var direct := Obj(map["ok" := Bool(true), "result" := Obj(map["translation" := Arr([])])]);
    var context := Obj(map["ok" := Bool(true), "result" := Obj(map["examples" := Arr([Obj(map["translation" := Str("Baum")])])])]);
    EchoedReplies("copac", direct, context);
    FallbackPayloads();
    ContextStageOutcome("copac", EchoMode, Replies(direct, context), NoFormat);
  }

  /** The two payloads of ScenarioContextFallback, each on its own heuristic. */
  lemma FallbackPayloads()
    ensures PickTopFromTranslation(map["ok" := Bool(true), "result" := Obj(map["translation" := Arr([])])]) == None
    ensures TopFromContext(map["ok" := Bool(true), "result" := Obj(map["examples" := Arr([Obj(map["translation" := Str("Baum")])])])])
      == Some("Baum")
  {
    var res1 := map["translation" := Arr([])];
    var t1 := map["ok" := Bool(true), "result" := Obj(res1)];
    assert Unwrap(t1) == Obj(res1);
    assert forall i :: 0 <= i < |TranslationKeys| ==> FromKey(res1, TranslationKeys[i]).None?;
    FallbackContext(map["translation" := Str("Baum")]);
  }

  /** The context payload of ScenarioContextFallback. */
  lemma FallbackContext(d: map<string, Json>)
    requires d == map["translation" := Str("Baum")]
    ensures TopFromContext(map["ok" := Bool(true), "result" := Obj(map["examples" := Arr([Obj(d)])])]) == Some("Baum")
  {
    var res2 := map["examples" := Arr([Obj(d)])];
    var t2 := map["ok" := Bool(true), "result" := Obj(res2)];
    OnlyExamples(t2, res2, Obj(d));
    SoleCandidate(t2, res2, Obj(d));
    ProbeBaum(d);
  }

  /** A wrapped payload with nothing but one example has that example as its
      only candidate. */
  lemma OnlyExamples(t: map<string, Json>, res: map<string, Json>, item: Json)
    requires t == map["ok" := Bool(true), "result" := Obj(res)] && res == map["examples" := Arr([item])]
    ensures Unwrap(t) == Obj(res) && Candidates(res) == [item]
  {
    CandidatesInOrder(res);
  }

  /** The example of ScenarioContextFallback yields "Baum". */
  lemma ProbeBaum(d: map<string, Json>)
    requires d == map["translation" := Str("Baum")]
    ensures Usable(Obj(d)) == Some("Baum")
  {
    StripOfTrimmed("Baum");
    ProbeTranslationFirst(d, "Baum");
  }

  /** Both stages report failure: the 502 carries the context payload's
      message. */
  lemma ScenarioBothFail()
    ensures var direct := Obj(map["ok" := Bool(false)]);
      var context := Obj(map["ok" := Bool(false), "message" := Str("rate limited")]);
      TranslateRoDe("măr", EchoMode, Replies(direct, context), NoFormat) ==
        Handled(HttpError(502, "RO→DE failed: rate limited"), [TranslationMode, ContextMode])
  {
  }

  /** A numeric message is rendered by its Python type: the int 1 as "1",
      while the float 1.0 goes through Python's float rendering. */
  lemma ScenarioNumericMessage(format: Json -> string)
    ensures var direct := Obj(map["ok" := Bool(false)]);
      TranslateRoDe("măr", EchoMode, Replies(direct, Obj(map["ok" := Bool(false), "message" := Int(1)])), format) ==
        Handled(HttpError(502, "RO→DE failed: 1"), [TranslationMode, ContextMode]) &&
      TranslateRoDe("măr", EchoMode, Replies(direct, Obj(map["ok" := Bool(false), "message" := Float(1.0)])), format) ==
        Handled(HttpError(502, FailedPrefix + format(Float(1.0))), [TranslationMode, ContextMode])
  {
    assert IntStr(1) == "1";
  }

  /** Both stages report `ok` but neither heuristic finds anything: the fixed
      "no usable candidate" 502. */
  lemma ScenarioNoCandidate()
    ensures var empty := Obj(map["ok" := Bool(true), "result" := Obj(map[])]);
      TranslateRoDe("măr", EchoMode, Replies(empty, empty), NoFormat) ==
        Handled(HttpError(502, NoCandidateDetail), [TranslationMode, ContextMode])
  {
    var t := map["ok" := Bool(true), "result" := Obj(map[])];
    var res: map<string, Json> := map[];
    assert Unwrap(t) == Obj(res);
    assert forall i :: 0 <= i < |TranslationKeys| ==> FromKey(res, TranslationKeys[i]).None?;
    CandidatesInOrder(res);
    assert Candidates(res) == [];
    EchoedReplies("măr", Obj(t), Obj(t));
    ContextStageOutcome("măr", EchoMode, Replies(Obj(t), Obj(t)), NoFormat);
  }

  /** Without `node` on the PATH both stages get the synthesised failure
      payload, and the 502 says so. */
  lemma ScenarioNodeMissing(word: string, parse: string -> Option<Json>, format: Json -> string)
    ensures TranslateRoDe(word, _ => NodeNotFound, parse, format) ==
      Handled(HttpError(502, FailedPrefix + NodeMissingMessage), [TranslationMode, ContextMode])
  {
  }

  /** An empty string at element 0 of the first list stops the direct search
      (later keys are not consulted) and is falsy, so context mode runs. */
  lemma ScenarioEmptyDirectWordFallsBack()
    ensures var direct := Obj(map["ok" := Bool(true), "translation" := Arr([Str("")]), "results" := Arr([Str("Apfel")])]);
      var context := Obj(map["ok" := Bool(false)]);
      TranslateRoDe("măr", EchoMode, Replies(direct, context), NoFormat) ==
        Handled(HttpError(502, FailedPrefix + UnknownError), [TranslationMode, ContextMode])
  {
    var t1 := map["ok" := Bool(true), "translation" := Arr([Str("")]), "results" := Arr([Str("Apfel")])];
    assert Unwrap(t1) == Obj(t1);
    assert FromKey(t1, TranslationKeys[0]) == Some("");
    FirstHitWins(TranslationKeys, k => FromKey(t1, k), 0);
  }

  /** A blank direct word is not stripped: it is truthy, so it is the answer. */
  lemma ScenarioBlankDirectWord()
    ensures var direct := Obj(map["ok" := Bool(true), "translation" := Arr([Str(" ")])]);
      TranslateRoDe("măr", EchoMode, Replies(direct, Null), NoFormat).outcome ==
        Ok(Response("măr", Target, " ", Source, TranslationMode, map[RawKey := direct]))
  {
    var t1 := map["ok" := Bool(true), "translation" := Arr([Str(" ")])];
    assert Unwrap(t1) == Obj(t1);
    assert FromKey(t1, TranslationKeys[0]) == Some(" ");
    FirstHitWins(TranslationKeys, k => FromKey(t1, k), 0);
  }
}

/** The two payload-extraction heuristics of api.py: pick_top_from_translation
    (first key that yields wins) and pick_top_from_context (gather candidates
    from every key, then take the first non-blank one, stripped). */
module Heuristics {
  import opened Payload
  import opened PyStrings
  import opened Search

  /** Keys pick_top_from_translation tries, in order. */
  const TranslationKeys: seq<string> := ["translation", "translations", "result", "results"]
  /** Fields probed inside a dict element 0 by pick_top_from_translation. */
  const DirectProbeKeys: seq<string> := ["translation", "text", "value"]
  /** Keys pick_top_from_context gathers candidates from, in order. */
  const ContextKeys: seq<string> := ["translation", "translations", "results", "examples", "contextResults"]
  /** Lists gathered from a dict value under one of ContextKeys. */
  const NestedListKeys: seq<string> := ["translation", "translations"]
  /** Fields probed inside a dict candidate by pick_top_from_context. */
  const ContextProbeKeys: seq<string> := ["translation", "text", "value", "to"]

  /** `payload.get("result") if "result" in payload else payload`. */
  function Unwrap(payload: map<string, Json>): Json
  {
    if "result" in payload then payload["result"] else Obj(payload)
  }

  // ---------------------------------------------------------------------------
  // pick_top_from_translation

  /** `d[k]` when `isinstance(d.get(k), str)`. */
  function StringAt(d: map<string, Json>, k: string): Option<string>
  {
    match Get(d, k)
    case Str(s) => Some(s)
    case _ => None
  }

  /** What element 0 of a list yields: itself if a string, the first string
      among its DirectProbeKeys if a dict, nothing otherwise. */
  function FromFirstElement(first: Json): Option<string>
  {
    match first
    case Str(s) => Some(s)
    case Obj(d) => FirstSome(DirectProbeKeys, k => StringAt(d, k))
    case _ => None
  }

  /** What one key of the unwrapped dict yields: only a non-empty list counts,
      and only its element 0 is looked at. */
  function FromKey(res: map<string, Json>, k: string): Option<string>
  {
    match Get(res, k)
    case Arr(items) => if |items| == 0 then None else FromFirstElement(items[0])
    case _ => None
  }

  /** pick_top_from_translation: the yield of the first of TranslationKeys
      that yields anything, unchanged; None when the unwrapped payload is not
      a dict or no key yields. */
  function PickTopFromTranslation(payload: map<string, Json>): (r: Option<string>)
    ensures !Unwrap(payload).Obj? ==> r == None
    ensures Unwrap(payload).Obj? ==>
      var res := Unwrap(payload).fields;
      (r.None? <==> forall i :: 0 <= i < |TranslationKeys| ==> FromKey(res, TranslationKeys[i]).None?) &&
      forall i :: 0 <= i < |TranslationKeys| && FromKey(res, TranslationKeys[i]).Some? &&
                  (forall j :: 0 <= j < i ==> FromKey(res, TranslationKeys[j]).None?) ==>
        r == FromKey(res, TranslationKeys[i])
  {
    match Unwrap(payload)
    case Obj(res) => FirstSome(TranslationKeys, k => FromKey(res, k))
    case _ => None
  }

  // ---------------------------------------------------------------------------
  // pick_top_from_context

  /** `d[k]` when `isinstance(d.get(k), list)`, else nothing. */
  function ListAt(d: map<string, Json>, k: string): seq<Json>
  {
    match Get(d, k)
    case Arr(items) => items
    case _ => []
  }

  /** The lists under the first `n` of NestedListKeys in the dict `d`,
      concatenated in order. */
  function NestedLists(d: map<string, Json>, n: nat): seq<Json>
    requires n <= |NestedListKeys|
  {
    if n == 0 then [] else NestedLists(d, n - 1) + ListAt(d, NestedListKeys[n - 1])
  }

  /** What the value under one of ContextKeys adds to the candidates: a list
      all of its elements; a dict its NestedListKeys lists; anything else
      nothing. */
  function Contribution(res: map<string, Json>, k: string): seq<Json>
  {
    match Get(res, k)
    case Arr(items) => items
    case Obj(d) => NestedLists(d, |NestedListKeys|)
    case _ => []
  }

  /** The candidates gathered from the first `n` of ContextKeys, concatenated
      in order. */
  function Gathered(res: map<string, Json>, n: nat): seq<Json>
    requires n <= |ContextKeys|
  {
    if n == 0 then [] else Gathered(res, n - 1) + Contribution(res, ContextKeys[n - 1])
  }

  /** pick_top_from_context's candidate list. */
  function Candidates(res: map<string, Json>): seq<Json>
  {
    Gathered(res, |ContextKeys|)
  }

  /** `s.strip()` when it is truthy. */
  function NonBlank(s: string): Option<string>
  {
    var t := Strip(s);
    if t != "" then Some(t) else None
  }

  /** The stripped non-blank string under `k` in `d`, if there is one. */
  function NonBlankAt(d: map<string, Json>, k: string): Option<string>
  {
    match Get(d, k)
    case Str(s) => NonBlank(s)
    case _ => None
  }

  /** What one candidate yields: a non-blank string, stripped; for a dict the
      first non-blank string among ContextProbeKeys, stripped. */
  function Usable(item: Json): Option<string>
  {
    match item
    case Str(s) => NonBlank(s)
    case Obj(d) => FirstSome(ContextProbeKeys, k => NonBlankAt(d, k))
    case _ => None
  }

  /** The result pick_top_from_context computes: the first usable candidate
      of the concatenated candidate list. */
  function TopFromContext(payload: map<string, Json>): (r: Option<string>)
    ensures !Unwrap(payload).Obj? ==> r == None
    ensures r.Some? ==> r.value != "" && Strip(r.value) == r.value
  {
    match Unwrap(payload)
    case Obj(res) =>
      var cands := Candidates(res);
      FirstUsableIsStripped(cands);
      FirstSome(cands, Usable)
    case _ => None
  }

  /** The first usable candidate is non-empty and already stripped. */
  lemma FirstUsableIsStripped(cands: seq<Json>)
    ensures var r := FirstSome(cands, Usable); r.Some? ==> r.value != "" && Strip(r.value) == r.value
  {
    var r := FirstSome(cands, Usable);
    if r.Some? {
      var i :| 0 <= i < |cands| && Usable(cands[i]) == r;
      UsableIsStripped(cands[i]);
    }
  }

  /** Whatever a candidate yields is non-empty and already stripped. */
  lemma UsableIsStripped(item: Json)
    ensures Usable(item).Some? ==> Usable(item).value != "" && Strip(Usable(item).value) == Usable(item).value
  {
    match item
    case Str(s) =>
      StripIdempotent(s);
    case Obj(d) =>
      if Usable(item).Some? {
        var i :| 0 <= i < |ContextProbeKeys| && NonBlankAt(d, ContextProbeKeys[i]) == Usable(item);
        StripIdempotent(Get(d, ContextProbeKeys[i]).s);
      }
    case _ =>
  }

  // ---------------------------------------------------------------------------
  // Properties of the two heuristics

  /** Both heuristics read `payload["result"]` when that key is present, and
      give up when it is not a dict, whatever else the payload holds. */
  lemma NonDictResultYieldsNothing(payload: map<string, Json>)
    requires "result" in payload && !payload["result"].Obj?
    ensures PickTopFromTranslation(payload) == None
    ensures TopFromContext(payload) == None
  {
  }

  /** What pick_top_from_translation returns is stored verbatim in the payload:
      it is element 0 of a list under one of TranslationKeys, or a string field
      among DirectProbeKeys of that element 0. Nothing is stripped. */
  lemma {:induction false} TranslationReturnsStoredString(payload: map<string, Json>)
    ensures PickTopFromTranslation(payload).Some? ==>
      var s := PickTopFromTranslation(payload).value;
      Unwrap(payload).Obj? &&
      exists i :: 0 <= i < |TranslationKeys| && StoredAsFirst(Unwrap(payload).fields, TranslationKeys[i], s)
  {
    if PickTopFromTranslation(payload).Some? {
      var s := PickTopFromTranslation(payload).value;
      var res := Unwrap(payload).fields;
      var i :| 0 <= i < |TranslationKeys| && FromKey(res, TranslationKeys[i]) == Some(s);
      var first := Get(res, TranslationKeys[i]).items[0];
      if first.Obj? {
        var j :| 0 <= j < |DirectProbeKeys| && StringAt(first.fields, DirectProbeKeys[j]) == Some(s);
        assert Get(first.fields, DirectProbeKeys[j]) == Str(s);
      }
      assert StoredAsFirst(res, TranslationKeys[i], s);
    }
  }

  /** `s` sits, unchanged, as element 0 of the list under `k`, or in one of
      DirectProbeKeys of that element 0. */
  ghost predicate StoredAsFirst(res: map<string, Json>, k: string, s: string)
  {
    Get(res, k).Arr? && |Get(res, k).items| > 0 &&
    var first := Get(res, k).items[0];
    first == Str(s) ||
    (first.Obj? && exists j :: 0 <= j < |DirectProbeKeys| && Get(first.fields, DirectProbeKeys[j]) == Str(s))
  }

  /** A string at element 0 of the first key that yields wins outright, even
      when it is empty or blank, and whatever later keys hold. */
  lemma StringFirstElementWins(payload: map<string, Json>, i: nat, s: string)
    requires Unwrap(payload).Obj? && i < |TranslationKeys|
    requires var res := Unwrap(payload).fields;
      Get(res, TranslationKeys[i]).Arr? && |Get(res, TranslationKeys[i]).items| > 0 &&
      Get(res, TranslationKeys[i]).items[0] == Str(s) &&
      forall j :: 0 <= j < i ==> FromKey(res, TranslationKeys[j]).None?
    ensures PickTopFromTranslation(payload) == Some(s)
  {
    var res := Unwrap(payload).fields;
    assert FromKey(res, TranslationKeys[i]) == Some(s);
    FirstHitWins(TranslationKeys, k => FromKey(res, k), i);
  }

  /** pick_top_from_context's candidate list is the concatenation, in
      ContextKeys order, of what each key contributes. */
  lemma CandidatesInOrder(res: map<string, Json>)
    ensures Candidates(res) ==
      Contribution(res, "translation") + Contribution(res, "translations") + Contribution(res, "results") +
      Contribution(res, "examples") + Contribution(res, "contextResults")
  {
    assert Gathered(res, 1) == Contribution(res, "translation");
    assert Gathered(res, 2) == Gathered(res, 1) + Contribution(res, "translations");
    assert Gathered(res, 3) == Gathered(res, 2) + Contribution(res, "results");
    assert Gathered(res, 4) == Gathered(res, 3) + Contribution(res, "examples");
  }

  /** A dict under one of ContextKeys contributes its `translation` list, then
      its `translations` list. */
  lemma NestedListsInOrder(d: map<string, Json>)
    ensures NestedLists(d, |NestedListKeys|) == ListAt(d, "translation") + ListAt(d, "translations")
  {
    assert NestedLists(d, 1) == ListAt(d, "translation");
  }

  /** What the context scan returns is the strip of a string stored in one of
      the candidates: the candidate itself, or one of its ContextProbeKeys
      fields; and every earlier candidate yields nothing. */
  lemma {:induction false} FirstUsableIsStoredStripped(cands: seq<Json>)
    ensures FirstSome(cands, Usable).Some? ==>
      var s := FirstSome(cands, Usable).value;
      exists n :: 0 <= n < |cands| && StripsTo(cands[n], s) &&
        forall m :: 0 <= m < n ==> Usable(cands[m]).None?
  {
    if FirstSome(cands, Usable).Some? {
      var s := FirstSome(cands, Usable).value;
      var n :| 0 <= n < |cands| && Usable(cands[n]) == Some(s) &&
        forall m :: 0 <= m < n ==> Usable(cands[m]).None?;
      UsableStripsTo(cands[n], s);
    }
  }

  /** What one candidate yields is the strip of a string it stores. */
  lemma UsableStripsTo(item: Json, s: string)
    requires Usable(item) == Some(s)
    ensures StripsTo(item, s)
  {
    if item.Obj? {
      var d := item.fields;
      var j :| 0 <= j < |ContextProbeKeys| && NonBlankAt(d, ContextProbeKeys[j]) == Some(s);
      assert Get(d, ContextProbeKeys[j]).Str?;
    }
  }

  /** `item` is a string, or a dict with a string among ContextProbeKeys,
      whose strip is the non-empty `s`. */
  ghost predicate StripsTo(item: Json, s: string)
  {
    s != "" &&
    ((item.Str? && Strip(item.s) == s) ||
     (item.Obj? &&
      exists j :: 0 <= j < |ContextProbeKeys| &&
        Get(item.fields, ContextProbeKeys[j]).Str? && Strip(Get(item.fields, ContextProbeKeys[j]).s) == s))
  }

  /** A dict candidate whose `translation` field is a non-blank string yields
      that string stripped, whatever its other fields hold. */
  lemma ProbeTranslationFirst(d: map<string, Json>, s: string)
    requires Get(d, "translation") == Str(s) && Strip(s) != ""
    ensures Usable(Obj(d)) == Some(Strip(s))
  {
    assert NonBlankAt(d, ContextProbeKeys[0]) == Some(Strip(s));
    FirstHitWins(ContextProbeKeys, k => NonBlankAt(d, k), 0);
  }

  /** The two heuristics differ on the same payload: an empty list under
      `translation` leaves the translation heuristic with nothing, while the
      context heuristic goes on to `examples`, and strips what it finds. */
  lemma HeuristicsDiffer()
    ensures var p := map["translation" := Arr([]), "examples" := Arr([Obj(map["translation" := Str(" Baum ")])])];
      PickTopFromTranslation(p) == None && TopFromContext(p) == Some("Baum")
  {
    var item := Obj(map["translation" := Str(" Baum ")]);
    var p := map["translation" := Arr([]), "examples" := Arr([item])];
    EmptyListDirectSide(p, item);
    SingleCandidateContextSide(p, item);
    StripPadded();
    ProbeTranslationFirst(item.fields, " Baum ");
  }

  /** Direct side of HeuristicsDiffer: only an empty list among TranslationKeys. */
  lemma EmptyListDirectSide(p: map<string, Json>, item: Json)
    requires p == map["translation" := Arr([]), "examples" := Arr([item])]
    ensures PickTopFromTranslation(p) == None
  {
    assert Unwrap(p) == Obj(p);
    assert FromKey(p, TranslationKeys[0]) == None;
    assert FromKey(p, TranslationKeys[1]) == None;
    assert FromKey(p, TranslationKeys[2]) == None;
    assert FromKey(p, TranslationKeys[3]) == None;
  }

  /** The padding around the word in HeuristicsDiffer is stripped. */
  lemma StripPadded()
    ensures Strip(" Baum ") == "Baum"
  {
    assert TrimStart(" Baum ") == "Baum ";
    assert TrimEnd("Baum ") == "Baum";
  }

  /** Context side of HeuristicsDiffer: `examples` holds the only candidate. */
  lemma SingleCandidateContextSide(p: map<string, Json>, item: Json)
    requires p == map["translation" := Arr([]), "examples" := Arr([item])]
    ensures TopFromContext(p) == Usable(item)
  {
    assert Unwrap(p) == Obj(p);
    CandidatesInOrder(p);
    SoleCandidate(p, p, item);
  }

  /** With a single candidate, the context heuristic returns what it yields. */
  lemma SoleCandidate(payload: map<string, Json>, res: map<string, Json>, item: Json)
    requires Unwrap(payload) == Obj(res) && Candidates(res) == [item]
    ensures TopFromContext(payload) == Usable(item)
  {
    if Usable(item).Some? {
      FirstHitWins([item], Usable, 0);
    }
  }

  /** A blank string at element 0 is returned as it is by the translation
      heuristic, and skipped by the context heuristic. */
  lemma BlankHandledDifferently()
    ensures var p := map["translation" := Arr([Str("  "), Str("Apfel")])];
      PickTopFromTranslation(p) == Some("  ") && TopFromContext(p) == Some("Apfel")
  {
    var p := map["translation" := Arr([Str("  "), Str("Apfel")])];
    assert Unwrap(p) == Obj(p);
    assert FromKey(p, TranslationKeys[0]) == Some("  ");
    FirstHitWins(TranslationKeys, k => FromKey(p, k), 0);
    BlankThenWord(p);
  }

  /** Context side of BlankHandledDifferently. */
  lemma BlankThenWord(p: map<string, Json>)
    requires p == map["translation" := Arr([Str("  "), Str("Apfel")])]
    ensures TopFromContext(p) == Some("Apfel")
  {
    assert Unwrap(p) == Obj(p);
    CandidatesInOrder(p);
    assert Candidates(p) == [Str("  "), Str("Apfel")];
    assert TrimStart("  ") == "";
    assert Usable(Str("  ")) == None;
    StripOfTrimmed("Apfel");
    FirstHitWins([Str("  "), Str("Apfel")], Usable, 1);
  }

  /** The first phase of pick_top_from_context: grow the candidate list with
      `extend`, key by key, in ContextKeys order. */
  method GatherCandidates(res: map<string, Json>) returns (candidates: seq<Json>)
    ensures candidates == Candidates(res)
  {
    candidates := [];
    for i := 0 to |ContextKeys|
      invariant candidates == Gathered(res, i)
    {
      var v := Get(res, ContextKeys[i]);
      if v.Arr? {
        candidates := candidates + v.items;
      } else if v.Obj? {
        var nested := NestedCandidates(v.fields);
        candidates := candidates + nested;
      }
    }
  }

  /** The inner loop of the first phase: the lists a dict value holds under
      NestedListKeys, in order. */
  method NestedCandidates(d: map<string, Json>) returns (items: seq<Json>)
    ensures items == NestedLists(d, |NestedListKeys|)
  {
    items := [];
    for j := 0 to |NestedListKeys|
      invariant items == NestedLists(d, j)
    {
      var inner := Get(d, NestedListKeys[j]);
      if inner.Arr? {
        items := items + inner.items;
      }
    }
  }

  /** The second phase of pick_top_from_context: scan the candidates in order
      and return on the first usable one. */
  method FirstUsable(candidates: seq<Json>) returns (r: Option<string>)
    ensures r == FirstSome(candidates, Usable)
  {
    for n := 0 to |candidates|
      invariant forall m :: 0 <= m < n ==> Usable(candidates[m]).None?
    {
      var item := candidates[n];
      if item.Str? && Strip(item.s) != "" {
        FirstHitWins(candidates, Usable, n);
        return Some(Strip(item.s));
      }
      if item.Obj? {
        var probed := ProbeFields(item.fields);
        if probed.Some? {
          FirstHitWins(candidates, Usable, n);
          return probed;
        }
      }
    }
    return None;
  }

  /** The inner loop of the second phase: the first of ContextProbeKeys whose
      value in a dict candidate is a non-blank string, stripped. */
  method ProbeFields(d: map<string, Json>) returns (r: Option<string>)
    ensures r == FirstSome(ContextProbeKeys, k => NonBlankAt(d, k))
  {
    for j := 0 to |ContextProbeKeys|
      invariant forall m :: 0 <= m < j ==> NonBlankAt(d, ContextProbeKeys[m]).None?
    {
      var field := Get(d, ContextProbeKeys[j]);
      if field.Str? && Strip(field.s) != "" {
        FirstHitWins(ContextProbeKeys, k => NonBlankAt(d, k), j);
        return Some(Strip(field.s));
      }
    }
    return None;
  }

  /** pick_top_from_context: unwrap, gather the candidates, scan them. */
  method PickTopFromContext(payload: map<string, Json>) returns (r: Option<string>)
    ensures r == TopFromContext(payload)
  {
    var wrapped := Unwrap(payload);
    if !wrapped.Obj? {
      return None;
    }
    var candidates := GatherCandidates(wrapped.fields);
    r := FirstUsable(candidates);
  }
}

# RO → DE translator: the payload heuristics and the fallback handler

This project models the core of `api.py`, the FastAPI service behind
`POST /translate-ro-de`. The handler sends a Romanian word to a Node helper,
`reverso_helper.js`, in "translation" mode. It reads the top German word out of
the JSON payload that comes back. When that does not give a word, it asks once
more in "context" mode and scans the examples. If that also fails, it answers
502.

The model has six modules in five files:

- `payload.dfy`
  - `Payload`: the parsed JSON tree (`Json`), `dict.get` (`Get`) and Python
    truthiness (`Truthy`).
  - `Search`: `FirstSome`, the "first hit wins" search that all four
    early-return loops of `api.py` share.
- `pystrings.dfy`, `PyStrings`: `str.strip()`, using Python's own whitespace
  code points.
- `heuristics.dfy`, `Heuristics`:
  - `pick_top_from_translation` is a pure function.
  - `pick_top_from_context` is a method with loops. It grows the candidate
    list with `extend`, then scans it. It is proved equal to the pure function
    `TopFromContext`.
- `adapter.dfy`, `Adapter`: the error mapping of `call_reverso` over an
  abstract process outcome.
- `orchestrator.dfy`, `Orchestrator`: `translate_ro_de`. It is a function of
  the word and of three parameters that stand for what the model cannot see:
  - `run`: how `node` ends for a request envelope;
  - `parse`: `json.loads`;
  - `format`: Python's `str()` of floats, lists and dicts.

  Its result records the outcome and the modes `call_reverso` was called
  with. The outcome is a response, a 502, or an exception the handler lets
  escape.

Both heuristics and the handler are Dafny functions. Each is therefore a
deterministic function of its inputs. `PickTopFromContext` is a method without
a `modifies` clause and changes nothing. So neither heuristic mutates its
payload, and calling one twice gives the same answer.

## Model

| member | source | states |
|---|---|---|
| Search.FirstSome | api.py:44-54 | The search returns nothing iff no element yields. Otherwise it returns the yield of an element such that every earlier element yields nothing. |
| Search.FirstHitWins | api.py:78-84 | When element `i` yields and every earlier element does not, the search returns element `i`'s yield. So the first hit is unique, and it is the result. |
| PyStrings.IsSpace | api.py:79 | `c.isspace()`: exactly the code points 0x09–0x0D, 0x1C–0x20, 0x85, 0xA0, 0x1680, 0x2000–0x200A, 0x2028, 0x2029, 0x202F, 0x205F and 0x3000. |
| PyStrings.TrimStartShape | api.py:79-80 | Stripping the front removes exactly a blank prefix. What is left is a suffix of the input that does not start with whitespace. |
| PyStrings.TrimEndShape | api.py:79-80 | Stripping the back removes exactly a blank suffix. What is left is a prefix of the input that does not end with whitespace. |
| PyStrings.StripShape | api.py:79-84 | `s.strip()` is a contiguous slice of `s` with only whitespace around it. A non-empty result starts and ends with non-whitespace. |
| PyStrings.StripOfTrimmed | api.py:35-37 | A string with no whitespace at either end strips to itself. |
| PyStrings.StripIdempotent | api.py:80 | Stripping twice is the same as stripping once. |
| PyStrings.StripEmptyIffBlank | api.py:79 | `s.strip()` is falsy exactly when every character of `s` is whitespace. |
| Heuristics.PickTopFromTranslation | api.py:39-54 | Nothing when the unwrapped payload is not a dict. Otherwise: nothing iff no key of `translation, translations, result, results` yields, and the yield of the first key that yields. An element 0 that yields nothing does not stop the search. |
| Heuristics.NonDictResultYieldsNothing | api.py:41-43 | With `result` present and not a dict, both heuristics return nothing, whatever else the payload holds. |
| Heuristics.TranslationReturnsStoredString | api.py:46-53 | What the translation heuristic returns is stored verbatim: it is element 0 of a list under one of its keys, or a `translation`/`text`/`value` string of that element. |
| Heuristics.StringFirstElementWins | api.py:48-49 | A string at element 0 under the first key that yields is returned outright, even when it is empty or blank. |
| Heuristics.TopFromContext | api.py:56-85 | Nothing when the unwrapped payload is not a dict. Any result is non-empty and equal to its own strip. |
| Heuristics.UsableIsStripped | api.py:79-84 | Whatever one candidate yields is non-empty and already stripped. |
| Heuristics.FirstUsableIsStripped | api.py:78-85 | The first usable candidate's yield is non-empty and already stripped. |
| Heuristics.Contribution | api.py:68-75 | What the value under one context key adds to the candidates: a list adds all its elements; a dict adds its `translation` list, then its `translations` list; any other value adds nothing. |
| Heuristics.CandidatesInOrder | api.py:63-75 | The candidate list is the in-order concatenation of what `translation, translations, results, examples, contextResults` contribute. |
| Heuristics.NestedListsInOrder | api.py:71-75 | A dict under one of those keys contributes its `translation` list, then its `translations` list. |
| Heuristics.FirstUsableIsStoredStripped | api.py:78-85 | The context result is the strip of a string stored in some candidate: the candidate itself, or one of its `translation, text, value, to` fields. Every earlier candidate yields nothing. |
| Heuristics.UsableStripsTo | api.py:79-84 | What one candidate yields is the strip of a string that it stores. |
| Heuristics.ProbeTranslationFirst | api.py:81-84 | A dict candidate with a non-blank `translation` string yields that string stripped, whatever its other fields hold. |
| Heuristics.SoleCandidate | api.py:78-85 | With a single candidate, the context heuristic returns what that candidate yields. |
| Heuristics.HeuristicsDiffer | api.py:44-84 | On `{translation: [], examples: [{translation: " Baum "}]}` the translation heuristic finds nothing, while the context heuristic goes on and returns "Baum". |
| Heuristics.BlankHandledDifferently | api.py:48-49 | On `{translation: ["  ", "Apfel"]}` the translation heuristic returns the blank "  " as it is, while the context heuristic skips it and returns "Apfel". |
| Heuristics.GatherCandidates | api.py:63-75 | The list the `extend` loop builds is the concatenated candidate list. |
| Heuristics.NestedCandidates | api.py:71-75 | The inner loop collects a dict's `translation` and `translations` lists, in order. |
| Heuristics.FirstUsable | api.py:78-85 | The scanning loop returns the first usable candidate's yield, and nothing when no candidate is usable. |
| Heuristics.ProbeFields | api.py:81-84 | The inner probe loop returns the first non-blank string among `translation, text, value, to`, stripped. |
| Heuristics.PickTopFromContext | api.py:56-85 | The method equals `TopFromContext` on every payload. |
| Adapter.CallReverso | api.py:21-37 | The mapping has these cases:<br>• A clean exit returns the parsed stdout.<br>• An unparsable stdout on a clean exit, and only that, escapes as an exception.<br>• A non-zero exit returns the parsed stderr.<br>• When the stderr does not parse, it returns `{ok: False, message: stderr.strip()}`, with "Unknown error" when the strip is empty.<br>• A missing `node` returns the fixed "Node.js not found" failure payload.<br>Every synthesised payload reports failure with a non-empty, stripped message. |
| Orchestrator.TranslateRoDe | api.py:88-120 | Context mode runs at most once, and only after direct mode. Every 502 comes after both calls. Every success echoes the input word, is German from Romanian, and has a non-empty word. Its `details` hold exactly the payload that produced it, a payload whose `ok` is truthy and whose heuristic for the recorded strategy gives that word. A context word is also stripped. A "translation" success follows one call, and a "context" success follows both. |
| Orchestrator.DirectStrategyIff | api.py:93-103 | The answer has strategy "translation" exactly when the direct payload is a dict, `ok` is truthy and the translation heuristic gives a non-empty string. |
| Orchestrator.DirectSuccessAnswer | api.py:93-103 | A successful direct stage is the whole answer: its pick, its payload as `details`, and no context call. |
| Orchestrator.ContextInvokedIff | api.py:93-106 | Exactly one context call follows the direct call exactly when the direct payload is a dict that did not succeed. |
| Orchestrator.ContextStageOutcome | api.py:106-120 | After a failed direct stage, the context payload decides:<br>• `ok` not truthy gives a 502 "RO→DE failed: " followed by the message, or "Unknown error".<br>• `ok` without a candidate gives the fixed "no usable German candidate" 502.<br>• Otherwise the context pick is the answer, with strategy "context" and that payload as `details`. |
| Orchestrator.UnhandledIff | api.py:93-107 | An exception escapes the handler exactly in these cases:<br>• the direct stdout is not JSON, or the direct payload is not a dict;<br>• the direct stage did not succeed, and the context stdout is not JSON or the context payload is not a dict.<br>It is the decode error exactly when a stdout failed to parse. |
| Orchestrator.FailureDetailCarriesMessage | api.py:108 | The 502 detail ends with the context payload's message verbatim when it is a string, and with "Unknown error" when it is absent. |
| Orchestrator.EchoedReplies | api.py:93-106 | With a helper that echoes the mode and a parser that maps each mode to its scripted payload, each call returns its mode's payload. |
| Orchestrator.ScenarioDirectHit | api.py:93-103 | `{ok: true, result: {translation: ["Apfel"]}}` answers "Apfel" by strategy "translation" after one call. |
| Orchestrator.ScenarioContextFallback | api.py:105-120 | A barren direct payload falls back to context mode, whose `examples` give "Baum". |
| Orchestrator.FallbackPayloads | api.py:95-110 | The direct payload of the fallback scenario yields nothing, and its context payload yields "Baum". |
| Orchestrator.ScenarioBothFail | api.py:106-108 | Two failed payloads give the 502 "RO→DE failed: rate limited". |
| Orchestrator.ScenarioNoCandidate | api.py:110-112 | Two `ok` payloads with nothing in them give the fixed "no usable German candidate" 502. |
| Orchestrator.ScenarioNodeMissing | api.py:36-37 | Without `node` both stages get the synthesised payload, and the 502 carries the "Node.js not found" message. |
| Orchestrator.ScenarioEmptyDirectWordFallsBack | api.py:44-49 | An empty string at element 0 of `translation` stops the direct search (the later `results` key is not consulted). It is falsy, so context mode runs. |
| Payload.Get | api.py:45 | `d.get(k)`: the stored value, or a JSON null when `k` is absent. |
| Payload.Truthy | api.py:94-111 | Python's truth test on a parsed value: `None`, `False`, zero, and an empty string, list or dict are falsy. |
| PyStrings.Strip | api.py:79-84 | `str.strip()`. Its result is never longer than its input; the shape lemmas below characterise it completely. |
| PyStrings.Digits | api.py:108 | `str()` of a non-negative int: only decimal digits, at least one, and no leading zero. |
| PyStrings.IntStr | api.py:108 | `str()` of an int: a leading minus exactly for a negative value, then decimal digits. |
| PyStrings.DigitsRoundTrip | api.py:108 | Reading the digits of `n` back as a decimal number gives `n`. |
| PyStrings.IntStrInjective | api.py:108 | Distinct ints render differently, so an int message reaches the 502 detail without loss. |
| Heuristics.Unwrap | api.py:41 | `payload["result"]` when that key is present, otherwise the payload itself. |
| Heuristics.FromFirstElement | api.py:47-53 | What element 0 yields: itself if a string; if a dict, its first string among `translation, text, value`; nothing otherwise. |
| Heuristics.FromKey | api.py:45-53 | What one key yields: only a non-empty list counts, and only its element 0 is looked at. |
| Heuristics.Candidates | api.py:63-75 | The candidate list of the context heuristic: the contributions of its five keys, in order. |
| Heuristics.Usable | api.py:79-84 | What one candidate yields: a non-blank string, stripped; for a dict, its first non-blank string among `translation, text, value, to`, stripped. |
| Adapter.FailurePayload | api.py:35-37 | The synthesised `{"ok": False, "message": m}` payload, with exactly those two keys. |
| Orchestrator.MessageOrDefault | api.py:108 | `t.get('message', 'Unknown error')`: the stored value when the key is present, even a null, and otherwise the string "Unknown error". |
| Orchestrator.PyStr | api.py:108 | How the f-string renders the message: a string as it is, an int in decimal, `None`, `True` and `False` by name, and anything else through Python's `str()`. |
| Orchestrator.DirectSucceeds | api.py:94-96 | The direct stage succeeds when its payload is a dict, its `ok` is truthy and the translation heuristic gives a non-empty string. |
| Orchestrator.ScenarioNumericMessage | api.py:107-108 | A failed context payload with the int message `1` gives the 502 "RO→DE failed: 1", while the float `1.0` goes through Python's float rendering. |
| Orchestrator.ScenarioBlankDirectWord | api.py:94-103 | A blank direct word is truthy and is returned unstripped. |

## Left out

- Spawning `node reverso_helper.js` and the plumbing of its stdin, stdout and stderr. This is process I/O, so the model takes it as the parameter `run`.
- `json.dumps` and `json.loads`. These are library calls, so the model takes `json.loads` as the parameter `parse` and works on the parsed tree.
- Python's `str()` of floats, lists and dicts in the 502 detail. This is the parameter `format`. Strings, ints, `None`, `True` and `False` are rendered exactly.
- OS errors from `subprocess.run` other than a missing executable, such as a permission error. They escape the handler and are not modelled.
- A JSON float is an exact `real`, not an IEEE double. Its rounding is not modelled, and neither are the NaN and infinities that `json.loads` accepts, nor signed zero: -0.0 is 0.0 here, although Python renders it "-0.0". Ints and floats are separate cases, so `1` and `1.0` stay distinct in the 502 detail and in the echoed `details`.
- A JSON object is a map. Duplicate keys, which `json.loads` resolves by keeping the last, are therefore not modelled.
- FastAPI routing, pydantic validation and the HTTP exception machinery. A response is a plain datatype and an `HTTPException` is an outcome variant. An exception that escapes is the `Unhandled` variant, which the framework answers with 500.
- `reverso_helper.js` and `reverso.py` are not part of this model. They are I/O wrappers around a remote translation library.
- Heuristics.PickTopFromContext: the two nested loops of `pick_top_from_context` are split into four methods, one per loop: `GatherCandidates`, `NestedCandidates`, `FirstUsable` and `ProbeFields`. Together they run the same statements in the same order.

# SCAI call guard: call-state receiver and analysis backend, modelled in Dafny

This project models two small deterministic cores of the SCAI call-guard application
and proves properties of them.

1. **The Android call-state receiver** (`PhoneStateReceiver`). It keeps a remembered raw state
   `lastState` (IDLE, RINGING or OFFHOOK) and a flag `isIncomingCall`. Each
   `android.intent.action.PHONE_STATE` broadcast carries a state extra and an optional number.
   The receiver updates the two fields and hands at most one event to a static callback:
   `CALL_INCOMING`, `CALL_STARTED` or `CALL_ENDED`.
   `PhoneState.Receive` is the transition table as a pure function.
   The class `PhoneState.Receiver` has the two fields, and its methods `OnReceive`,
   `HandleIdleState`, `HandleRingingState` and `HandleOffHookState` are proved against that table.
   The static callback slot is a `callbackSet` parameter. When no callback is set, the fields
   change just the same and nothing is delivered.
   `After` and `Events` run one receiver over a sequence of broadcasts; the trace lemmas use them.
2. **The backend's decision logic and analysis store** (`backend/server.js`).
   - `Analysis`: the risk level of a score, the mock analysis and the audio upload filter.
     Every `Math.random()` draw is an explicit integer input (`Draws`).
   - `Json`: records are JavaScript objects (maps from property names to values), with
     JavaScript truthiness and object spread.
   - `History`: the `analysisHistory` array and its four handlers (analyze, history query,
     update by id, lookup by id). Each handler is a pure function of the history before the
     request. The class `History.AnalysisStore` holds the array as a field, and its handler
     methods are proved against those functions.

Fresh ids (`uuidv4()`), ISO timestamps and the multer-generated file name are opaque string inputs.

Behaviour of the code worth noting:
- The risk level is computed from the mock confidence score of one analysis.
- A repeated RINGING broadcast emits `CALL_INCOMING` again each time; it is not silent.
  Only a repeated OFFHOOK or IDLE is silent.
- The code comments give the confidence ranges as "60-100" and "10-70". The arithmetic gives
  60..99 and 10..69, and the model follows the arithmetic.

Two consequences of the transition table as written, both proved:
- RINGING followed by IDLE yields no `CALL_ENDED` from any prior state (`UnansweredRing`).
  This includes a call-waiting ring during an answered call.
- An update body may overwrite `id`, after which the record can no longer be looked up by its
  old id (`UpdateRenamesId`).

## Model

| member | source | states |
|---|---|---|
| PhoneState.Receiver.constructor | android/app/src/main/kotlin/com/scai/guard/scai_app/PhoneStateReceiver.kt:29-30 | a new receiver starts with `lastState` IDLE and `isIncomingCall` false, which is consistent |
| PhoneState.Receiver.OnReceive | android/app/src/main/kotlin/com/scai/guard/scai_app/PhoneStateReceiver.kt:32-51 | the new fields are those of the transition table; the delivered event is the table's event when a callback is set and nothing otherwise; consistency is kept |
| PhoneState.Receiver.HandleIdleState | android/app/src/main/kotlin/com/scai/guard/scai_app/PhoneStateReceiver.kt:53-64 | fields become (IDLE, false); `CALL_ENDED` with the number is delivered iff the phone was off the hook and a callback is set |
| PhoneState.Receiver.HandleRingingState | android/app/src/main/kotlin/com/scai/guard/scai_app/PhoneStateReceiver.kt:66-74 | fields become (RINGING, true); `CALL_INCOMING` with the number is delivered when a callback is set |
| PhoneState.Receiver.HandleOffHookState | android/app/src/main/kotlin/com/scai/guard/scai_app/PhoneStateReceiver.kt:76-94 | `lastState` becomes OFFHOOK; from IDLE the flag is cleared; `CALL_STARTED` is delivered from IDLE or RINGING only |
| PhoneState.Receive | android/app/src/main/kotlin/com/scai/guard/scai_app/PhoneStateReceiver.kt:32-51 | no contract of its own: the whole transition table; characterised by IdleSignal, RingingSignal, OffHookSignal, IgnoredBroadcast, EventCarriesNumber, EndedIff and ReceivePreservesConsistent |
| PhoneState.IdleStep | android/app/src/main/kotlin/com/scai/guard/scai_app/PhoneStateReceiver.kt:53-64 | no contract of its own: handleIdleState; characterised by IdleSignal and EndedIff, and implemented by Receiver.HandleIdleState |
| PhoneState.RingingStep | android/app/src/main/kotlin/com/scai/guard/scai_app/PhoneStateReceiver.kt:66-74 | no contract of its own: handleRingingState; characterised by RingingSignal, and implemented by Receiver.HandleRingingState |
| PhoneState.OffHookStep | android/app/src/main/kotlin/com/scai/guard/scai_app/PhoneStateReceiver.kt:76-94 | no contract of its own: handleOffHookState; characterised by OffHookSignal and RepeatedOffHookSilent, and implemented by Receiver.HandleOffHookState |
| PhoneState.CallState.Name | android/app/src/main/kotlin/com/scai/guard/scai_app/PhoneStateReceiver.kt:20-23 | no contract of its own: the emitted-state constants CALL_IDLE, CALL_INCOMING, CALL_STARTED and CALL_ENDED; EventCarriesNumber shows CALL_IDLE is never emitted |
| PhoneState.Events | android/app/src/main/kotlin/com/scai/guard/scai_app/PhoneStateReceiver.kt:32-51 | one event slot (an event or none) per broadcast delivered, in delivery order |
| PhoneState.After | android/app/src/main/kotlin/com/scai/guard/scai_app/PhoneStateReceiver.kt:29-94 | no contract of its own: the receiver's fields after a sequence of `onReceive` calls; AfterConsistent, EventAt, EndedIffAt, OffHookAfterStarted, UnansweredRing and OffHookRunSilent are stated in its terms |
| PhoneState.IdleSignal | android/app/src/main/kotlin/com/scai/guard/scai_app/PhoneStateReceiver.kt:53-64 | an IDLE broadcast emits `CALL_ENDED` iff `lastState` was OFFHOOK, and always leaves (IDLE, false) |
| PhoneState.RingingSignal | android/app/src/main/kotlin/com/scai/guard/scai_app/PhoneStateReceiver.kt:66-74 | a RINGING broadcast emits `CALL_INCOMING` with its number from any state and leaves (RINGING, true) |
| PhoneState.OffHookSignal | android/app/src/main/kotlin/com/scai/guard/scai_app/PhoneStateReceiver.kt:76-94 | OFFHOOK ends in OFFHOOK; it emits `CALL_STARTED` iff not already off the hook; after RINGING the flag is kept (true for a consistent receiver); after IDLE it is cleared |
| PhoneState.RepeatedOffHookSilent | android/app/src/main/kotlin/com/scai/guard/scai_app/PhoneStateReceiver.kt:79-93 | OFFHOOK after OFFHOOK emits nothing and changes neither field |
| PhoneState.OffHookRunSilent | android/app/src/main/kotlin/com/scai/guard/scai_app/PhoneStateReceiver.kt:79-93 | any run of OFFHOOK broadcasts while off the hook emits nothing and leaves the fields as they were |
| PhoneState.EventCarriesNumber | android/app/src/main/kotlin/com/scai/guard/scai_app/PhoneStateReceiver.kt:33-49 | every emitted event carries the broadcast's number, comes from a phone-state broadcast and is never `CALL_IDLE` |
| PhoneState.IgnoredBroadcast | android/app/src/main/kotlin/com/scai/guard/scai_app/PhoneStateReceiver.kt:33-49 | a different action, a missing state or a state that is none of the three emits nothing and changes neither field |
| PhoneState.EndedIff | android/app/src/main/kotlin/com/scai/guard/scai_app/PhoneStateReceiver.kt:53-60 | `CALL_ENDED` is emitted exactly for an IDLE phone-state broadcast received while OFFHOOK |
| PhoneState.ReceivePreservesConsistent | android/app/src/main/kotlin/com/scai/guard/scai_app/PhoneStateReceiver.kt:53-94 | every transition keeps "RINGING implies incoming, IDLE implies not incoming" |
| PhoneState.AfterConsistent | android/app/src/main/kotlin/com/scai/guard/scai_app/PhoneStateReceiver.kt:29-94 | a receiver that starts consistent stays consistent over any sequence of broadcasts |
| PhoneState.EventAt | android/app/src/main/kotlin/com/scai/guard/scai_app/PhoneStateReceiver.kt:32-51 | over a sequence, the i-th event is what the i-th broadcast makes of the fields left by the earlier ones |
| PhoneState.EndedIffAt | android/app/src/main/kotlin/com/scai/guard/scai_app/PhoneStateReceiver.kt:53-60 | over a sequence, position i holds `CALL_ENDED` iff broadcast i is IDLE and the fields before it were OFFHOOK |
| PhoneState.EventOfPrefix | android/app/src/main/kotlin/com/scai/guard/scai_app/PhoneStateReceiver.kt:32-51 | later broadcasts never change an event already emitted: the j-th event of a sequence is the j-th event of any longer prefix |
| PhoneState.OffHookAfterStarted | android/app/src/main/kotlin/com/scai/guard/scai_app/PhoneStateReceiver.kt:76-94 | a fresh receiver is OFFHOOK only after some broadcast emitted `CALL_STARTED` |
| PhoneState.EndedOnlyAfterStarted | android/app/src/main/kotlin/com/scai/guard/scai_app/PhoneStateReceiver.kt:53-94 | from a fresh receiver, every `CALL_ENDED` is preceded by a `CALL_STARTED` |
| PhoneState.UnansweredRing | android/app/src/main/kotlin/com/scai/guard/scai_app/PhoneStateReceiver.kt:53-74 | RINGING then IDLE yields `CALL_INCOMING` then nothing, never `CALL_ENDED`, and ends in the initial fields |
| Json.Spread | backend/server.js:216-220 | object spread: the keys of both objects, the later object's values winning, the others kept |
| Json.Truthy | backend/server.js:185 | no contract of its own: JavaScript truthiness ("", 0, false and null are falsy), applied to `item.isScam` through FieldTruthy; used by ScamRecords, QueryScamOnly and AnalysisRecord |
| Json.FieldTruthy | backend/server.js:185 | no contract of its own: `item.key` as a condition, a missing key being falsy; characterised through ScamRecords and AnalysisRecord |
| Analysis.RiskThresholds | backend/server.js:75-77 | CRITICAL iff score >= 80, HIGH iff 60..79, MEDIUM iff 40..59, LOW iff below 40 |
| Analysis.RiskLevelOf | backend/server.js:75-77 | no contract of its own: the risk-level ternary; characterised by RiskThresholds and RiskMonotone |
| Analysis.RiskLevel.Name | backend/server.js:62-77 | the stored level string is the entry of `RISK_LEVELS` at the level's rank ("LOW", "MEDIUM", "HIGH", "CRITICAL"); used by AnalysisRecord and StoredRiskLevel |
| Analysis.RiskMonotone | backend/server.js:75-77 | a higher score never gives a lower risk level |
| Analysis.ScamTypeNotLegitimate | backend/server.js:50-60 | no index below `SCAM_TYPES.length - 1` selects LEGITIMATE |
| Analysis.GenerateMockAnalysis | backend/server.js:65-93 | scam: confidence 60..99, one of the eight scam types, both flags; legitimate: confidence 10..69, LEGITIMATE, no flags; level from the score; duration 30..329; id, time and file fields as given |
| Analysis.DrawsInRange | backend/server.js:66-89 | no contract of its own: the ranges `Math.floor(Math.random() * k)` can produce for the confidence (k = 40 or 60), the scam type (k = 8, drawn for a scam only) and the duration (k = 300); the precondition of GenerateMockAnalysis, NewRecord, Analyze and AnalysisStore.AnalyzeAudio |
| Analysis.MockRiskByOutcome | backend/server.js:66-77 | a scam is always HIGH or CRITICAL; a legitimate result is never CRITICAL |
| Analysis.AnalysisRecord | backend/server.js:79-92 | the stored object has exactly the twelve analysis fields; its `id` is the id and its `isScam` is truthy iff the outcome is a scam |
| History.StoredRiskLevel | backend/server.js:66-77 | the stored and returned record's `riskLevel` is "HIGH" or "CRITICAL" for a scam, and never "CRITICAL" for a legitimate call |
| Analysis.StartsWith | backend/server.js:38 | `startsWith` holds iff the prefix is the first characters of the string |
| Analysis.FileFilter | backend/server.js:36-43 | a file is accepted iff its MIME type begins with "audio/"; otherwise it is refused with "Only audio files are allowed!" |
| History.FindIndex | backend/server.js:205 | −1 iff no record has the id; otherwise the index of the first record whose `id` is that string |
| History.HasId | backend/server.js:205 | no contract of its own: `item.id === id`, where the property must exist and be that very string; used by FindIndex and Lookup |
| History.Lookup | backend/server.js:236-244 | success iff some record has the id, returning the first such record; otherwise 404 |
| History.AnalyzeWithoutFile | backend/server.js:124-130 | without a file the reply is 400 and the history is unchanged |
| History.Analyze | backend/server.js:118-159 | no contract of its own: the whole analyze request; characterised by AnalyzeWithoutFile, AnalyzeNotAudio, AnalyzeAppends and LookupAfterAnalyze, and implemented by AnalysisStore.AnalyzeAudio |
| History.NewRecord | backend/server.js:137-143 | no contract of its own: the record an accepted upload stores; characterised by NewRecordFields |
| History.WithMetadata | backend/server.js:140-143 | no contract of its own: the four metadata assignments; characterised by WithMetadataFields |
| History.Present | backend/server.js:140-143 | no contract of its own: `if (req.body.key)`: the field was sent and is not the empty string; used by WithMetadataFields and NewRecordFields |
| History.AnalyzeNotAudio | backend/server.js:36-43 | a non-audio upload ends in the 500 error reply and the history is unchanged |
| History.AnalyzeAppends | backend/server.js:137-146 | an accepted upload appends exactly one record at the end, keeps the earlier ones and returns the new record |
| History.NewRecordFields | backend/server.js:137-143 | the stored record has the analysis fields, the given id and a truthy `isScam` iff a scam; it has each metadata field iff the request sent it non-empty, and no other fields |
| History.WithMetadataFields | backend/server.js:140-143 | `phoneNumber`, `callType`, `callDuration` (the parsed integer) and `callTimestamp` (from `timestamp`) are set iff the request sent them non-empty; every other field, including a metadata field the request did not resend, keeps its value |
| History.FindIndexAppend | backend/server.js:146 | appending keeps the index an id already found; an id not found before is found at the new position iff the new record has it |
| History.LookupAfterAnalyze | backend/server.js:146 | a record just stored under an id no earlier record had is what looking up that id returns |
| History.SliceFrom | backend/server.js:181 | `slice(start)` returns a run of the last records: `n - start` of them (at least 0) for a non-negative start, `-start` of them (at most n) for a negative one |
| History.ScamRecords | backend/server.js:185 | the filter keeps exactly the records whose `isScam` is truthy, and never grows |
| History.ScamRecordsAppend | backend/server.js:185 | the filter keeps relative order: filtering a concatenation concatenates the filtered parts |
| History.ScamRecordsAll | backend/server.js:185 | when every record is a scam, the filter keeps them all |
| History.ScamRecordsReversed | backend/server.js:185-192 | filtering and reversing give the same result in either order |
| History.PositiveLimitWindow | backend/server.js:179-182 | a positive limit L selects min(L, n) records |
| History.NonPositiveLimitWindow | backend/server.js:179-182 | a zero limit selects all n records; a negative limit L selects n + L of them (at least 0), dropping records from the front |
| History.WindowIsSuffix | backend/server.js:179-182 | whatever the limit, the window is at most n records and is the most recent run of the history |
| History.QueryBounded | backend/server.js:179-186 | with a positive limit L the answer has at most min(L, n) records |
| History.QueryHistory | backend/server.js:176-192 | no contract of its own: the history query's answer; characterised by QueryNewestFirst, QueryBounded, QueryMostRecentFirst and QueryScamOnly |
| History.Window | backend/server.js:179-182 | no contract of its own: what the limit selects; characterised by WindowIsSuffix, PositiveLimitWindow and NonPositiveLimitWindow |
| History.QueryMostRecentFirst | backend/server.js:176-192 | without the scam filter, for every limit, the answer has as many records as the window, and its k-th record is the k-th from the end of the history |
| History.QueryNewestFirst | backend/server.js:176-192 | for every query the answer is the window turned newest first, with the non-scam records taken out when `scamOnly=true`; so the filtered answer is newest first too |
| History.QueryScamOnly | backend/server.js:184-186 | with `scamOnly=true` every record returned is a scam, and every scam in the limited window is returned |
| History.UpdatedRecord | backend/server.js:216-220 | the updated record has the old keys, the body's keys and `updatedAt`; body fields override, other fields are kept, and `updatedAt` is the update time |
| History.UpdateUnknownId | backend/server.js:205-213 | an id no record has gives 404 and leaves the history unchanged |
| History.Update | backend/server.js:205-220 | no contract of its own: the whole update request; characterised by UpdateUnknownId, UpdateFrame, LookupAfterUpdate and UpdateRenamesId |
| History.UpdateFrame | backend/server.js:205-228 | a successful update keeps the length, replaces only the first record with the id, and returns the new record |
| History.LookupAfterUpdate | backend/server.js:216-244 | after an update whose body leaves the id alone, looking up the id returns the updated record |
| History.UpdateRenamesId | backend/server.js:216-244 | a body that sets a different `id` hides the record from its old id when no later record has that id |
| History.ReverseInPlace | backend/server.js:192 | the array afterwards is its old contents in reverse order |
| History.Reversed | backend/server.js:192 | no contract of its own: the copy after `.reverse()`; the reference for ReverseInPlace, and used by ScamRecordsReversed and QueryNewestFirst |
| History.AnalysisStore.constructor | backend/server.js:47 | the history starts empty |
| History.AnalysisStore.AnalyzeAudio | backend/server.js:118-159 | the new history and the reply are those `Analyze` gives for the old history |
| History.AnalysisStore.GetAnalysisHistory | backend/server.js:172-196 | `total` is the full history length and `history` is the query answer; the store is not changed |
| History.AnalysisStore.UpdateAnalysisStatus | backend/server.js:199-229 | the new history and the reply are those `Update` gives for the old history |
| History.AnalysisStore.GetAnalysis | backend/server.js:232-253 | the reply is the lookup of the id in the current history |

## Left out

- The Flutter method and event channels and receiver registration in `MainActivity.kt`: these are platform wiring with no logic beyond a null check.
- Cross-thread delivery through the static callback slot, and the order in which Android delivers broadcasts: concurrency and OS behaviour. The slot is reduced to whether a callback is set.
- Logging (`Log.d`, `console.log`): output only.
- Express routing, CORS, body parsing, the logging middleware, the 404 route handler and the server start-up: HTTP plumbing. The error middleware appears only as the 500 reply to a refused upload.
- multer's disk storage, the generated file name, the 50 MB size limit, the "unexpected field" error and `fs.ensureDirSync`: file I/O in a foreign library. The stored file name is an input.
- The 2-second `setTimeout` in the analyze handler: timing only.
- The `try`/`catch` 500 reply of the analyze handler: nothing in the modelled handler throws.
- `Math.random()`: the draws are integer inputs within the ranges the flooring can produce. The 40 % scam probability is not modelled.
- `uuidv4()` and `new Date().toISOString()`: opaque string inputs. The `timestamp` field of every reply is omitted.
- `parseInt`: the limit and `callDuration` are given already parsed. A limit that parses to `NaN` behaves like no limit (`slice(NaN)` keeps everything), so `None` stands for it. A `callDuration` that parses to `NaN` is not modelled.
- A repeated multipart field or query parameter (which arrives as an array), non-object JSON update bodies, and fractional JSON numbers: values are the integer, string, boolean, null, array and object cases only.

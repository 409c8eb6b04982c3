/**
 * The backend's in-memory `analysisHistory` and the four request handlers that use it:
 * analyze (append), history query, update by id and lookup by id.
 *
 * Each handler is specified by a pure function of the history before the request
 * (`Analyze`, `QueryHistory`, `Update`, `Lookup`); the class `AnalysisStore` holds the
 * array as a field and its methods are proved against those functions.
 */
module History {
  import opened Wrappers
  import opened Json
  import opened Analysis

  /** A handler's JSON answer: `{ success: true, analysis }`, or an error status with its body. */
  datatype Reply =
    | Success(analysis: Record)
    | Failure(status: int, error: string, message: Option<string>)

  /** The history after a request, and the reply sent. */
  datatype Handled = Handled(history: seq<Record>, reply: Reply)

  const NotFound: Reply := Failure(404, "Analysis not found", None)
  const NoFile: Reply := Failure(400, "No audio file provided", None)

  /** What the error-handling middleware sends when multer's filter refuses the upload. */
  const NotAudio: Reply := Failure(500, "Internal server error", Some(NotAudioMessage))

  // ---------------------------------------------------------------------------
  // Lookup by id (`find` / `findIndex` with `item.id === id`)
  // ---------------------------------------------------------------------------

  /** `item.id === id`: the property exists and is that very string. */
  predicate HasId(r: Record, id: string)
  {
    "id" in r && r["id"] == Str(id)
  }

  /** `findIndex`: the first position whose record has the id, or -1 when there is none. */
  function FindIndex(s: seq<Record>, id: string): (i: int)
    ensures -1 <= i < |s|
    ensures i == -1 <==> forall k :: 0 <= k < |s| ==> !HasId(s[k], id)
    ensures 0 <= i ==> HasId(s[i], id) && forall k :: 0 <= k < i ==> !HasId(s[k], id)
  {
    if s == [] then -1
    else if HasId(s[0], id) then 0
    else
      var j := FindIndex(s[1..], id);
      if j == -1 then -1 else j + 1
  }

  /** GET /analysis/:id: the first record with the id, or 404. */
  function Lookup(s: seq<Record>, id: string): (r: Reply)
    ensures r.Success? <==> exists k :: 0 <= k < |s| && HasId(s[k], id)
    ensures r.Success? ==> r.analysis == s[FindIndex(s, id)] && HasId(r.analysis, id)
    ensures r.Failure? ==> r == NotFound
  {
    var i := FindIndex(s, id);
    if i == -1 then NotFound else Success(s[i])
  }

  // ---------------------------------------------------------------------------
  // POST /analyze-audio
  // ---------------------------------------------------------------------------

  /** The multipart text fields of the upload request. */
  type Body = map<string, string>

  /** `if (req.body.key)`: the field was sent and is not the empty string. */
  predicate Present(body: Body, key: string)
  {
    key in body && body[key] != ""
  }

  /** The request metadata copied onto the analysis; `parsedDuration` is `parseInt(req.body.callDuration)`. */
  function WithMetadata(r: Record, body: Body, parsedDuration: int): Record
  {
    var r1 := if Present(body, "phoneNumber") then r["phoneNumber" := Str(body["phoneNumber"])] else r;
    var r2 := if Present(body, "callType") then r1["callType" := Str(body["callType"])] else r1;
    var r3 := if Present(body, "callDuration") then r2["callDuration" := Num(parsedDuration)] else r2;
    if Present(body, "timestamp") then r3["callTimestamp" := Str(body["timestamp"])] else r3
  }

  /** The record an accepted upload stores. */
  function NewRecord(file: Upload, body: Body, parsedDuration: int, d: Draws, id: string, now: string): Record
    requires DrawsInRange(d)
  {
    WithMetadata(AnalysisRecord(GenerateMockAnalysis(file, d, id, now)), body, parsedDuration)
  }

  /**
   * The whole request: multer's filter runs first (a refused file ends in the error middleware),
   * then a missing file is answered with 400, and otherwise one record is appended.
   */
  function Analyze(s: seq<Record>, file: Option<Upload>, body: Body, parsedDuration: int, d: Draws, id: string, now: string): Handled
    requires DrawsInRange(d)
  {
    if file.Some? && FileFilter(file.value.mimetype).Reject? then Handled(s, NotAudio)
    else if file.None? then Handled(s, NoFile)
    else
      var r := NewRecord(file.value, body, parsedDuration, d, id, now);
      Handled(s + [r], Success(r))
  }

  /** Without a file the request fails with 400 and the history is untouched. */
  lemma AnalyzeWithoutFile(s: seq<Record>, body: Body, parsedDuration: int, d: Draws, id: string, now: string)
    requires DrawsInRange(d)
    ensures Analyze(s, None, body, parsedDuration, d, id, now) == Handled(s, NoFile)
  {
  }

  /** A file whose type is not audio/... is refused with 500 and the history is untouched. */
  lemma AnalyzeNotAudio(s: seq<Record>, file: Upload, body: Body, parsedDuration: int, d: Draws, id: string, now: string)
    requires DrawsInRange(d)
    requires !(|file.mimetype| >= 6 && file.mimetype[..6] == "audio/")
    ensures Analyze(s, Some(file), body, parsedDuration, d, id, now) == Handled(s, NotAudio)
  {
  }

  /**
   * An accepted audio upload appends exactly one record at the end, leaves the earlier ones as
   * they were and returns the new one.
   */
  lemma AnalyzeAppends(s: seq<Record>, file: Upload, body: Body, parsedDuration: int, d: Draws, id: string, now: string)
    requires DrawsInRange(d)
    requires |file.mimetype| >= 6 && file.mimetype[..6] == "audio/"
    ensures var h := Analyze(s, Some(file), body, parsedDuration, d, id, now);
      && |h.history| == |s| + 1
      && h.history[..|s|] == s
      && h.history[|s|] == NewRecord(file, body, parsedDuration, d, id, now)
      && h.reply == Success(h.history[|s|])
  {
    var h := Analyze(s, Some(file), body, parsedDuration, d, id, now);
    assert h.history[..|s|] == s;
  }

  /**
   * The stored record has the analysis fields, its id and scam outcome, and exactly those
   * metadata fields that the request sent non-empty.
   */
  lemma NewRecordFields(file: Upload, body: Body, parsedDuration: int, d: Draws, id: string, now: string)
    requires DrawsInRange(d)
    ensures var r := NewRecord(file, body, parsedDuration, d, id, now);
      && AnalysisKeys <= r.Keys
      && HasId(r, id)
      && (FieldTruthy(r, "isScam") <==> d.isScam)
      && ("phoneNumber" in r <==> Present(body, "phoneNumber"))
      && ("callType" in r <==> Present(body, "callType"))
      && ("callDuration" in r <==> Present(body, "callDuration"))
      && ("callTimestamp" in r <==> Present(body, "timestamp"))
      && r.Keys <= AnalysisKeys + MetadataKeys
  {
    var base := AnalysisRecord(GenerateMockAnalysis(file, d, id, now));
    WithMetadataFields(base, body, parsedDuration);
  }

  const MetadataKeys: set<string> := {"phoneNumber", "callType", "callDuration", "callTimestamp"}

  /** The metadata step adds each of its four fields iff the request sent it, and keeps every other field. */
  lemma WithMetadataFields(r: Record, body: Body, parsedDuration: int)
    ensures var m := WithMetadata(r, body, parsedDuration);
      && m.Keys - MetadataKeys == r.Keys - MetadataKeys
      && (forall k :: k in r && k !in MetadataKeys ==> m[k] == r[k])
      && (Present(body, "phoneNumber") ==> m["phoneNumber"] == Str(body["phoneNumber"]))
      && (Present(body, "callType") ==> m["callType"] == Str(body["callType"]))
      && (Present(body, "callDuration") ==> m["callDuration"] == Num(parsedDuration))
      && (Present(body, "timestamp") ==> m["callTimestamp"] == Str(body["timestamp"]))
      && ("phoneNumber" in m <==> "phoneNumber" in r || Present(body, "phoneNumber"))
      && ("callType" in m <==> "callType" in r || Present(body, "callType"))
      && ("callDuration" in m <==> "callDuration" in r || Present(body, "callDuration"))
      && ("callTimestamp" in m <==> "callTimestamp" in r || Present(body, "timestamp"))
      && (!Present(body, "phoneNumber") && "phoneNumber" in r ==> m["phoneNumber"] == r["phoneNumber"])
      && (!Present(body, "callType") && "callType" in r ==> m["callType"] == r["callType"])
      && (!Present(body, "callDuration") && "callDuration" in r ==> m["callDuration"] == r["callDuration"])
      && (!Present(body, "timestamp") && "callTimestamp" in r ==> m["callTimestamp"] == r["callTimestamp"])
  {
  }

  /**
   * The record that is stored and returned carries the mock outcome's level: "HIGH" or
   * "CRITICAL" for a scam, never "CRITICAL" for a legitimate call.
   */
  lemma StoredRiskLevel(file: Upload, body: Body, parsedDuration: int, d: Draws, id: string, now: string)
    requires DrawsInRange(d)
    ensures var r := NewRecord(file, body, parsedDuration, d, id, now);
      && "riskLevel" in r
      && (d.isScam ==> r["riskLevel"] in {Str("HIGH"), Str("CRITICAL")})
      && (!d.isScam ==> r["riskLevel"] != Str("CRITICAL"))
  {
    var a := GenerateMockAnalysis(file, d, id, now);
    MockRiskByOutcome(file, d, id, now);
    WithMetadataFields(AnalysisRecord(a), body, parsedDuration);
  }

  /** Appending never changes which earlier record an id finds; a new id is found at the end. */
  lemma {:induction false} FindIndexAppend(s: seq<Record>, r: Record, id: string)
    ensures FindIndex(s, id) != -1 ==> FindIndex(s + [r], id) == FindIndex(s, id)
    ensures FindIndex(s, id) == -1 ==> FindIndex(s + [r], id) == (if HasId(r, id) then |s| else -1)
  {
    if s != [] {
      assert (s + [r])[1..] == s[1..] + [r];
      FindIndexAppend(s[1..], r, id);
    }
  }

  /** The record just stored can be looked up by its id, unless an earlier record already had it. */
  lemma LookupAfterAnalyze(s: seq<Record>, file: Upload, body: Body, parsedDuration: int, d: Draws, id: string, now: string)
    requires DrawsInRange(d)
    requires |file.mimetype| >= 6 && file.mimetype[..6] == "audio/"
    requires Lookup(s, id) == NotFound
    ensures var h := Analyze(s, Some(file), body, parsedDuration, d, id, now);
      h.reply.Success? && Lookup(h.history, id) == h.reply
  {
    var r := NewRecord(file, body, parsedDuration, d, id, now);
    AnalyzeAppends(s, file, body, parsedDuration, d, id, now);
    FindIndexAppend(s, r, id);
  }

  // ---------------------------------------------------------------------------
  // GET /get-analysis-history
  // ---------------------------------------------------------------------------

  /**
   * The query string: `limit` as `parseInt` read it (None when absent, empty or not a number,
   * all of which leave the copy whole) and the raw `scamOnly` text.
   */
  datatype HistoryQuery = HistoryQuery(limit: Option<int>, scamOnly: Option<string>)

  /** `{ success: true, history, total }` */
  datatype HistoryReply = HistoryReply(history: seq<Record>, total: nat)

  /** `Array.prototype.slice(start)` for an integer start, a negative start counting from the end. */
  function SliceFrom(s: seq<Record>, start: int): (r: seq<Record>)
    ensures |r| == if start >= 0 then (if start <= |s| then |s| - start else 0)
                   else (if -start <= |s| then -start else |s|)
    ensures r == s[|s| - |r|..]
  {
    var k := if start < 0 then (if |s| + start < 0 then 0 else |s| + start)
             else (if start > |s| then |s| else start);
    s[k..]
  }

  /** `list.filter(item => item.isScam)` */
  function ScamRecords(s: seq<Record>): (r: seq<Record>)
    ensures |r| <= |s|
    ensures forall k :: 0 <= k < |r| ==> FieldTruthy(r[k], "isScam")
    ensures forall x :: x in r <==> x in s && FieldTruthy(x, "isScam")
  {
    if s == [] then []
    else (if FieldTruthy(s[0], "isScam") then [s[0]] else []) + ScamRecords(s[1..])
  }

  /** The filter keeps relative order: filtering a concatenation filters each part. */
  lemma {:induction false} ScamRecordsAppend(a: seq<Record>, b: seq<Record>)
    ensures ScamRecords(a + b) == ScamRecords(a) + ScamRecords(b)
  {
    if a != [] {
      assert (a + b)[1..] == a[1..] + b;
      ScamRecordsAppend(a[1..], b);
    } else {
      assert a + b == b;
    }
  }

  /** When every record is a scam, the filter keeps them all. */
  lemma {:induction false} ScamRecordsAll(s: seq<Record>)
    requires forall k :: 0 <= k < |s| ==> FieldTruthy(s[k], "isScam")
    ensures ScamRecords(s) == s
  {
    if s != [] {
      ScamRecordsAll(s[1..]);
    }
  }

  /** The copy turned around, most recent first. */
  function Reversed(s: seq<Record>): seq<Record>
  {
    seq(|s|, k requires 0 <= k < |s| => s[|s| - 1 - k])
  }

  lemma ReversedAppend(a: seq<Record>, b: seq<Record>)
    ensures Reversed(a + b) == Reversed(b) + Reversed(a)
  {
  }

  /** Filtering and turning around can be done in either order. */
  lemma {:induction false} ScamRecordsReversed(s: seq<Record>)
    ensures Reversed(ScamRecords(s)) == ScamRecords(Reversed(s))
  {
    if s != [] {
      var head := if FieldTruthy(s[0], "isScam") then [s[0]] else [];
      assert s == [s[0]] + s[1..];
      ReversedAppend([s[0]], s[1..]);
      ReversedAppend(head, ScamRecords(s[1..]));
      ScamRecordsAppend(Reversed(s[1..]), [s[0]]);
      ScamRecordsReversed(s[1..]);
      assert Reversed([s[0]]) == [s[0]];
      assert Reversed(head) == head;
      assert ScamRecords([s[0]]) == head;
    }
  }

  /** The records the limit selects, before the scam filter. */
  function Window(s: seq<Record>, limit: Option<int>): seq<Record>
  {
    if limit.Some? then SliceFrom(s, -limit.value) else s
  }

  /** The `history` the query answers: the window, filtered when `scamOnly` is "true", newest first. */
  function QueryHistory(s: seq<Record>, q: HistoryQuery): seq<Record>
  {
    var w := Window(s, q.limit);
    Reversed(if q.scamOnly == Some("true") then ScamRecords(w) else w)
  }

  /** Whatever the limit, the window is a run of the most recent records. */
  lemma WindowIsSuffix(s: seq<Record>, limit: Option<int>)
    ensures |Window(s, limit)| <= |s|
    ensures Window(s, limit) == s[|s| - |Window(s, limit)|..]
  {
  }

  /** A positive limit L keeps the last min(L, n) records. */
  lemma PositiveLimitWindow(s: seq<Record>, limit: int)
    requires limit > 0
    ensures |Window(s, Some(limit))| == if limit <= |s| then limit else |s|
  {
  }

  /** A zero limit keeps the whole history; a negative one drops that many records from the front. */
  lemma NonPositiveLimitWindow(s: seq<Record>, limit: int)
    requires limit <= 0
    ensures |Window(s, Some(limit))| == if -limit <= |s| then |s| + limit else 0
  {
  }

  /** With a positive limit L the answer has at most min(L, n) records. */
  lemma QueryBounded(s: seq<Record>, q: HistoryQuery)
    requires q.limit.Some? && q.limit.value > 0
    ensures |QueryHistory(s, q)| <= |s| && |QueryHistory(s, q)| <= q.limit.value
  {
    PositiveLimitWindow(s, q.limit.value);
  }

  /**
   * Without the scam filter the answer is the whole window newest first: its k-th record is
   * the k-th from the end of the history, for every limit.
   */
  lemma QueryMostRecentFirst(s: seq<Record>, q: HistoryQuery)
    requires q.scamOnly != Some("true")
    ensures |QueryHistory(s, q)| == |Window(s, q.limit)|
    ensures forall k :: 0 <= k < |QueryHistory(s, q)| ==> QueryHistory(s, q)[k] == s[|s| - 1 - k]
  {
    WindowIsSuffix(s, q.limit);
  }

  /**
   * For every query the answer is the window turned newest first and then filtered, so the
   * scam-only answer is in newest-first order too: it is the newest-first window with the
   * non-scam records taken out.
   */
  lemma QueryNewestFirst(s: seq<Record>, q: HistoryQuery)
    ensures QueryHistory(s, q) ==
              if q.scamOnly == Some("true") then ScamRecords(Reversed(Window(s, q.limit)))
              else Reversed(Window(s, q.limit))
  {
    if q.scamOnly == Some("true") {
      ScamRecordsReversed(Window(s, q.limit));
    }
  }

  /** With `scamOnly=true` every record returned is a scam, and every scam in the window is returned. */
  lemma QueryScamOnly(s: seq<Record>, q: HistoryQuery)
    requires q.scamOnly == Some("true")
    ensures forall k :: 0 <= k < |QueryHistory(s, q)| ==> FieldTruthy(QueryHistory(s, q)[k], "isScam")
    ensures forall x :: x in QueryHistory(s, q) <==> x in Window(s, q.limit) && FieldTruthy(x, "isScam")
  {
    var f := ScamRecords(Window(s, q.limit));
    assert forall x :: x in Reversed(f) <==> x in f by {
      forall x ensures x in Reversed(f) <==> x in f {
        if x in f {
          var i :| 0 <= i < |f| && f[i] == x;
          assert Reversed(f)[|f| - 1 - i] == x;
        }
      }
    }
  }

  // ---------------------------------------------------------------------------
  // PUT /update-analysis-status/:id
  // ---------------------------------------------------------------------------

  /**
   * `{ ...record, ...body, updatedAt: now }`: every field of the body overrides the record's,
   * every other field stays, and `updatedAt` is the time of the update.
   */
  function UpdatedRecord(r: Record, body: Record, now: string): (u: Record)
    ensures u.Keys == r.Keys + body.Keys + {"updatedAt"}
    ensures u["updatedAt"] == Str(now)
    ensures forall k :: k in body && k != "updatedAt" ==> u[k] == body[k]
    ensures forall k :: k in r && k !in body && k != "updatedAt" ==> u[k] == r[k]
  {
    Spread(Spread(r, body), map["updatedAt" := Str(now)])
  }

  /** The whole request: 404 for an unknown id, else the first matching record is overwritten. */
  function Update(s: seq<Record>, id: string, body: Record, now: string): Handled
  {
    var i := FindIndex(s, id);
    if i == -1 then Handled(s, NotFound)
    else
      var u := UpdatedRecord(s[i], body, now);
      Handled(s[i := u], Success(u))
  }

  /** An id no record has is answered with 404 and changes nothing. */
  lemma UpdateUnknownId(s: seq<Record>, id: string, body: Record, now: string)
    requires forall k :: 0 <= k < |s| ==> !HasId(s[k], id)
    ensures Update(s, id, body, now) == Handled(s, NotFound)
  {
  }

  /**
   * A successful update keeps the length, replaces only the first record with the id, and
   * returns the new record, which is that record overridden by the body and stamped.
   */
  lemma UpdateFrame(s: seq<Record>, id: string, body: Record, now: string, i: nat)
    requires i < |s| && HasId(s[i], id)
    requires forall k :: 0 <= k < i ==> !HasId(s[k], id)
    ensures var h := Update(s, id, body, now);
      && |h.history| == |s|
      && h.history[i] == UpdatedRecord(s[i], body, now)
      && (forall k :: 0 <= k < |s| && k != i ==> h.history[k] == s[k])
      && h.reply == Success(h.history[i])
  {
  }

  /** After an update whose body leaves the id alone, looking the id up gives the updated record. */
  lemma LookupAfterUpdate(s: seq<Record>, id: string, body: Record, now: string)
    requires Lookup(s, id).Success?
    requires "id" !in body || body["id"] == Str(id)
    ensures Lookup(Update(s, id, body, now).history, id) == Update(s, id, body, now).reply
  {
    var i := FindIndex(s, id);
    var h := Update(s, id, body, now);
    assert HasId(h.history[i], id);
    assert forall k :: 0 <= k < i ==> h.history[k] == s[k];
  }

  /** A body that renames the id hides the record from its old id, unless a later record also has it. */
  lemma UpdateRenamesId(s: seq<Record>, id: string, other: string, now: string)
    requires id != other
    requires exists k :: 0 <= k < |s| && HasId(s[k], id)
    requires forall k :: FindIndex(s, id) < k < |s| ==> !HasId(s[k], id)
    ensures Lookup(Update(s, id, map["id" := Str(other)], now).history, id) == NotFound
  {
    var i := FindIndex(s, id);
    var h := Update(s, id, map["id" := Str(other)], now);
    assert !HasId(h.history[i], id);
    assert forall k :: 0 <= k < |s| && k != i ==> h.history[k] == s[k];
  }

  // ---------------------------------------------------------------------------
  // The store
  // ---------------------------------------------------------------------------

  /** Turns the array around in place, swapping from both ends toward the middle. */
  method ReverseInPlace(a: array<Record>)
    modifies a
    ensures a[..] == Reversed(old(a[..]))
  {
    var lo, hi := 0, a.Length - 1;
    while lo < hi
      invariant 0 <= lo <= hi + 1 <= a.Length
      invariant lo + hi == a.Length - 1
      invariant forall k :: 0 <= k < lo ==> a[k] == old(a[a.Length - 1 - k]) && a[a.Length - 1 - k] == old(a[k])
      invariant forall k :: lo <= k <= hi ==> a[k] == old(a[k])
    {
      a[lo], a[hi] := a[hi], a[lo];
      lo, hi := lo + 1, hi - 1;
    }
  }

  class AnalysisStore {
    var analysisHistory: seq<Record>

    constructor ()
      ensures analysisHistory == []
    {
      analysisHistory := [];
    }

    /** POST /analyze-audio, after multer has run. */
    method AnalyzeAudio(file: Option<Upload>, body: Body, parsedDuration: int, d: Draws, id: string, now: string)
      returns (reply: Reply)
      requires DrawsInRange(d)
      modifies this
      ensures Handled(analysisHistory, reply) == Analyze(old(analysisHistory), file, body, parsedDuration, d, id, now)
    {
      if file.Some? && FileFilter(file.value.mimetype).Reject? {
        return NotAudio;
      }
      if file.None? {
        return NoFile;
      }
      var analysis := AnalysisRecord(GenerateMockAnalysis(file.value, d, id, now));
      if Present(body, "phoneNumber") {
        analysis := analysis["phoneNumber" := Str(body["phoneNumber"])];
      }
      if Present(body, "callType") {
        analysis := analysis["callType" := Str(body["callType"])];
      }
      if Present(body, "callDuration") {
        analysis := analysis["callDuration" := Num(parsedDuration)];
      }
      if Present(body, "timestamp") {
        analysis := analysis["callTimestamp" := Str(body["timestamp"])];
      }
      analysisHistory := analysisHistory + [analysis];
      reply := Success(analysis);
    }

    /** GET /get-analysis-history: works on a copy, so the history itself is never changed. */
    method GetAnalysisHistory(q: HistoryQuery) returns (reply: HistoryReply)
      ensures reply.total == |analysisHistory|
      ensures reply.history == QueryHistory(analysisHistory, q)
    {
      var filteredHistory := analysisHistory;
      if q.limit.Some? {
        filteredHistory := SliceFrom(filteredHistory, -q.limit.value);
      }
      assert filteredHistory == Window(analysisHistory, q.limit);
      if q.scamOnly == Some("true") {
        filteredHistory := ScamRecords(filteredHistory);
      }
      var copy := new Record[|filteredHistory|](k requires 0 <= k < |filteredHistory| => filteredHistory[k]);
      assert copy[..] == filteredHistory;
      ReverseInPlace(copy);
      assert copy[..] == QueryHistory(analysisHistory, q);
      reply := HistoryReply(copy[..], |analysisHistory|);
    }

    /** PUT /update-analysis-status/:id */
    method UpdateAnalysisStatus(id: string, body: Record, now: string) returns (reply: Reply)
      modifies this
      ensures Handled(analysisHistory, reply) == Update(old(analysisHistory), id, body, now)
    {
      var analysisIndex := FindIndex(analysisHistory, id);
      if analysisIndex == -1 {
        return NotFound;
      }
      analysisHistory := analysisHistory[analysisIndex := UpdatedRecord(analysisHistory[analysisIndex], body, now)];
      reply := Success(analysisHistory[analysisIndex]);
    }

    /** GET /analysis/:id */
    method GetAnalysis(id: string) returns (reply: Reply)
      ensures reply == Lookup(analysisHistory, id)
    {
      var analysisIndex := FindIndex(analysisHistory, id);
      if analysisIndex == -1 {
        return NotFound;
      }
      reply := Success(analysisHistory[analysisIndex]);
    }
  }
}

/**
 * The backend's decision logic: the risk level of a confidence score, the mock analysis
 * outcome (with every `Math.random()` draw made an explicit integer input) and the upload
 * filter that admits audio files only.
 */
module Analysis {
  import opened Json

  const ScamTypes: seq<string> := [
    "ROBOCALL",
    "PHISHING",
    "TECH_SUPPORT",
    "IRS_SCAM",
    "LOTTERY_SCAM",
    "ROMANCE_SCAM",
    "INVESTMENT_FRAUD",
    "CHARITY_SCAM",
    "LEGITIMATE"
  ]

  const Legitimate: string := "LEGITIMATE"

  const RiskLevels: seq<string> := ["LOW", "MEDIUM", "HIGH", "CRITICAL"]

  datatype RiskLevel = Low | Medium | High | Critical
  {
    /** The position of the level in RISK_LEVELS, lowest first. */
    function Rank(): nat
    {
      match this
      case Low => 0
      case Medium => 1
      case High => 2
      case Critical => 3
    }

    function Name(): (name: string)
      ensures name == RiskLevels[Rank()]
    {
      match this
      case Low => "LOW"
      case Medium => "MEDIUM"
      case High => "HIGH"
      case Critical => "CRITICAL"
    }
  }

  /** The risk-level ternary of generateMockAnalysis. */
  function RiskLevelOf(score: int): RiskLevel
  {
    if score >= 80 then Critical
    else if score >= 60 then High
    else if score >= 40 then Medium
    else Low
  }

  /** The level is chosen by the thresholds 80, 60 and 40, each lower bound included. */
  lemma RiskThresholds(score: int)
    ensures RiskLevelOf(score) == Critical <==> 80 <= score
    ensures RiskLevelOf(score) == High <==> 60 <= score < 80
    ensures RiskLevelOf(score) == Medium <==> 40 <= score < 60
    ensures RiskLevelOf(score) == Low <==> score < 40
  {
  }

  /** A higher score never gives a lower level. */
  lemma RiskMonotone(a: int, b: int)
    requires a <= b
    ensures RiskLevelOf(a).Rank() <= RiskLevelOf(b).Rank()
  {
  }

  /** The file object multer hands to the handler. */
  datatype Upload = Upload(mimetype: string, originalname: string, filename: string, size: int)

  /**
   * The values `Math.random()` supplies, already scaled and floored: `isScam` is the outcome
   * of `Math.random() > 0.6`, `confidence` of `Math.floor(Math.random() * 40)` (scam) or
   * `* 60` (legitimate), `scamTypeIndex` of `Math.floor(Math.random() * (SCAM_TYPES.length - 1))`
   * (drawn for a scam only) and `duration` of `Math.floor(Math.random() * 300)`.
   */
  datatype Draws = Draws(isScam: bool, confidence: int, scamTypeIndex: int, duration: int)

  /** The ranges `Math.floor(Math.random() * k)` can produce. */
  predicate DrawsInRange(d: Draws)
  {
    && 0 <= d.confidence < (if d.isScam then 40 else 60)
    && (d.isScam ==> 0 <= d.scamTypeIndex < |ScamTypes| - 1)
    && 0 <= d.duration < 300
  }

  /** The result of generateMockAnalysis, field for field. */
  datatype Analysis = Analysis(
    id: string,
    fileName: string,
    originalName: string,
    confidenceScore: int,
    scamType: string,
    riskLevel: RiskLevel,
    isScam: bool,
    analysisTimestamp: string,
    fileSize: int,
    duration: int,
    keywords: seq<string>,
    flags: seq<string>)

  const ScamKeywords: seq<string> := ["suspicious", "urgent", "verify", "account"]
  const NormalKeywords: seq<string> := ["normal", "conversation"]
  const ScamFlags: seq<string> := ["SUSPICIOUS_KEYWORDS", "PRESSURE_TACTICS"]

  /** No index the type draw can produce reaches the last entry, LEGITIMATE. */
  lemma ScamTypeNotLegitimate(i: int)
    requires 0 <= i < |ScamTypes| - 1
    ensures ScamTypes[i] != Legitimate
  {
  }

  /**
   * generateMockAnalysis, with the random draws, the fresh id and the current time as inputs.
   * A scam scores 60..99, has one of the eight scam types and both flags; a legitimate call
   * scores 10..69, is LEGITIMATE and has no flags. Either way the level follows the score.
   */
  function GenerateMockAnalysis(file: Upload, d: Draws, id: string, now: string): (a: Analysis)
    requires DrawsInRange(d)
    ensures a.isScam == d.isScam
    ensures a.isScam ==> 60 <= a.confidenceScore <= 99
    ensures a.isScam ==> a.scamType in ScamTypes && a.scamType != Legitimate
    ensures a.isScam ==> a.flags == ScamFlags && a.keywords == ScamKeywords
    ensures !a.isScam ==> 10 <= a.confidenceScore <= 69
    ensures !a.isScam ==> a.scamType == Legitimate && a.flags == [] && a.keywords == NormalKeywords
    ensures a.riskLevel == RiskLevelOf(a.confidenceScore)
    ensures 30 <= a.duration <= 329
    ensures a.id == id && a.analysisTimestamp == now
    ensures a.fileName == file.filename && a.originalName == file.originalname && a.fileSize == file.size
  {
    var confidenceScore := if d.isScam then d.confidence + 60 else d.confidence + 10;
    Analysis(
      id := id,
      fileName := file.filename,
      originalName := file.originalname,
      confidenceScore := confidenceScore,
      scamType := if d.isScam then ScamTypes[d.scamTypeIndex] else Legitimate,
      riskLevel := RiskLevelOf(confidenceScore),
      isScam := d.isScam,
      analysisTimestamp := now,
      fileSize := file.size,
      duration := d.duration + 30,
      keywords := if d.isScam then ScamKeywords else NormalKeywords,
      flags := if d.isScam then ScamFlags else [])
  }

  /** A scam is always rated HIGH or CRITICAL; a legitimate call is never CRITICAL. */
  lemma MockRiskByOutcome(file: Upload, d: Draws, id: string, now: string)
    requires DrawsInRange(d)
    ensures d.isScam ==> GenerateMockAnalysis(file, d, id, now).riskLevel in {High, Critical}
    ensures !d.isScam ==> GenerateMockAnalysis(file, d, id, now).riskLevel != Critical
  {
  }

  /** The analysis as the JavaScript object that is stored and returned. */
  function AnalysisRecord(a: Analysis): (r: Record)
    ensures r.Keys == AnalysisKeys
    ensures r["id"] == Str(a.id) && r["isScam"] == Bool(a.isScam)
    ensures FieldTruthy(r, "isScam") <==> a.isScam
  {
    map[
      "id" := Str(a.id),
      "fileName" := Str(a.fileName),
      "originalName" := Str(a.originalName),
      "confidenceScore" := Num(a.confidenceScore),
      "scamType" := Str(a.scamType),
      "riskLevel" := Str(a.riskLevel.Name()),
      "isScam" := Bool(a.isScam),
      "analysisTimestamp" := Str(a.analysisTimestamp),
      "fileSize" := Num(a.fileSize),
      "duration" := Num(a.duration),
      "keywords" := Arr(Strs(a.keywords)),
      "flags" := Arr(Strs(a.flags))
    ]
  }

  const AnalysisKeys: set<string> := {
    "id", "fileName", "originalName", "confidenceScore", "scamType", "riskLevel", "isScam",
    "analysisTimestamp", "fileSize", "duration", "keywords", "flags"
  }

  function Strs(ss: seq<string>): seq<Value>
  {
    seq(|ss|, i requires 0 <= i < |ss| => Str(ss[i]))
  }

  /** `String.prototype.startsWith`, comparing one character at a time. */
  function StartsWith(s: string, prefix: string): (r: bool)
    ensures r <==> |prefix| <= |s| && s[..|prefix|] == prefix
  {
    if prefix == [] then true
    else if s == [] then false
    else s[0] == prefix[0] && StartsWith(s[1..], prefix[1..])
  }

  /** What multer's fileFilter callback is told: accept, or fail with an error message. */
  datatype FilterVerdict = Accept | Reject(message: string)

  const AudioPrefix: string := "audio/"
  const NotAudioMessage: string := "Only audio files are allowed!"

  /** The upload filter: a file is accepted exactly when its MIME type begins with "audio/". */
  function FileFilter(mimetype: string): (v: FilterVerdict)
    ensures v.Accept? <==> |mimetype| >= 6 && mimetype[..6] == "audio/"
    ensures v.Reject? ==> v.message == NotAudioMessage
  {
    if StartsWith(mimetype, AudioPrefix) then Accept else Reject(NotAudioMessage)
  }
}

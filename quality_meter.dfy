/**
 * The feedback quality meter: a fixed table from the five quality labels to
 * a level on a five-step scale, a fallback to the Neutral entry, and a row
 * of five segments of which the first `level` are lit.
 *
 * The colour classes of each entry are presentation only and are not part
 * of this model.
 */
module QualityMeter {
  import opened Wrappers

  /** What the meter shows for a quality: its level on the scale and its label. */
  datatype QualityInfo = QualityInfo(level: nat, caption: string)

  /** The number of segments, and the highest level. */
  const MaxLevel: nat := 5

  /** `qualityMap`: every label maps to an entry carrying that same label. */
  const QualityMap: map<string, QualityInfo> := map[
    "Very Bad" := QualityInfo(1, "Very Bad"),
    "Bad" := QualityInfo(2, "Bad"),
    "Neutral" := QualityInfo(3, "Neutral"),
    "Good" := QualityInfo(4, "Good"),
    "Very Good" := QualityInfo(5, "Very Good")
  ]

  /**
   * `info`: the entry of the label the quality names, and the Neutral entry
   * for any other value or none at all. (This is the lookup as intended;
   * `InfoAsWritten` below is the lookup as the code performs it.)
   */
  function Info(quality: Option<string>): (info: QualityInfo)
    ensures 1 <= info.level <= MaxLevel
    ensures info.caption == (if quality.Some? && quality.value in QualityMap then quality.value else "Neutral")
    ensures info.caption in QualityMap && info == QualityMap[info.caption]
  {
    if quality.Some? && quality.value in QualityMap then QualityMap[quality.value] else QualityMap["Neutral"]
  }

  /** The five labels name the levels 1 to 5, in order. */
  lemma LabelLevels()
    ensures Info(Some("Very Bad")).level == 1
    ensures Info(Some("Bad")).level == 2
    ensures Info(Some("Neutral")).level == 3
    ensures Info(Some("Good")).level == 4
    ensures Info(Some("Very Good")).level == 5
    ensures QualityMap.Keys == {"Very Bad", "Bad", "Neutral", "Good", "Very Good"}
  {
  }

  /**
   * Anything that is not exactly one of the five labels, including
   * "Unknown", no value at all and differently cased labels, is shown as
   * Neutral at level 3.
   */
  lemma FallbackIsNeutral(quality: Option<string>)
    requires quality.None? || quality.value !in {"Very Bad", "Bad", "Neutral", "Good", "Very Good"}
    ensures Info(quality) == Info(Some("Neutral")) == QualityInfo(3, "Neutral")
  {
  }

  /** No two labels share a level, so the level determines the label. */
  lemma LevelsInjective(a: string, b: string)
    requires a in QualityMap && b in QualityMap
    requires QualityMap[a].level == QualityMap[b].level
    ensures a == b
  {
  }

  // ---------------------------------------------------------------------
  // the segmented bar

  /** `Array.from({length: maxLevel}).map((_, i) => i < level)`: which segments are lit. */
  function Segments(level: int): (s: seq<bool>)
    ensures |s| == MaxLevel
  {
    Below(MaxLevel, level)
  }

  /** The first `n` indices, each flagged with whether it is below `level`. */
  function Below(n: nat, level: int): seq<bool> {
    seq(n, i requires 0 <= i < n => i < level)
  }

  /** The number of lit segments. */
  function CountTrue(s: seq<bool>): nat {
    if s == [] then 0 else CountTrue(s[..|s| - 1]) + (if s[|s| - 1] then 1 else 0)
  }

  /** Flagging the first `n` indices lights as many as lie below `level`. */
  lemma {:induction false} CountBelow(n: nat, level: int)
    ensures CountTrue(Below(n, level)) == if level <= 0 then 0 else if level >= n then n else level
  {
    if n > 0 {
      CountBelow(n - 1, level);
      assert Below(n, level)[..n - 1] == Below(n - 1, level);
    }
  }

  /** Exactly `level` of the five segments are lit, and segment `i` is lit exactly when `i < level`. */
  lemma MeterSegments(quality: Option<string>)
    ensures var level := Info(quality).level;
      && |Segments(level)| == MaxLevel
      && CountTrue(Segments(level)) == level
      && forall i :: 0 <= i < MaxLevel ==> (Segments(level)[i] <==> i < level)
  {
    CountBelow(MaxLevel, Info(quality).level);
  }

  // ---------------------------------------------------------------------
  // the lookup as written

  /**
   * The names every JavaScript object literal inherits from
   * `Object.prototype`; reading one of them from `qualityMap` yields a
   * function or an object, never `undefined`.
   */
  const ObjectPrototypeMembers: set<string> := {
    "constructor", "__proto__", "__defineGetter__", "__defineSetter__", "__lookupGetter__",
    "__lookupSetter__", "hasOwnProperty", "isPrototypeOf", "propertyIsEnumerable",
    "toLocaleString", "toString", "valueOf"
  }

  /** What the property read `qualityMap[key]` yields. */
  datatype PropertyRead = Own(info: QualityInfo) | Inherited | Missing

  /** The property key a quality becomes: an absent quality is the key "undefined". */
  function PropertyKey(quality: Option<string>): string {
    quality.GetOr("undefined")
  }

  function ReadQualityMap(key: string): PropertyRead {
    if key in QualityMap then Own(QualityMap[key])
    else if key in ObjectPrototypeMembers then Inherited
    else Missing
  }

  /** The level and the label the meter reads; `None` where the code reads `undefined`. */
  datatype MeterData = MeterData(level: Option<nat>, caption: Option<string>)

  /**
   * `qualityMap[quality] || qualityMap["Neutral"]` as the code computes it:
   * an inherited member is truthy, so it is used in place of the Neutral
   * entry, and neither its `level` nor its `label` is defined.
   */
  function InfoAsWritten(quality: Option<string>): MeterData {
    match ReadQualityMap(PropertyKey(quality))
    case Own(info) => MeterData(Some(info.level), Some(info.caption))
    case Inherited => MeterData(None, None)
    case Missing => MeterData(Some(QualityMap["Neutral"].level), Some(QualityMap["Neutral"].caption))
  }

  /** The lit segments as the code computes them: `i < undefined` is false. */
  function SegmentsAsWritten(level: Option<nat>): seq<bool> {
    match level
    case Some(l) => Segments(l)
    case None => Below(MaxLevel, 0)
  }

  /**
   * A quality such as "constructor" escapes the Neutral fallback: the meter
   * reads no level and no label and lights no segment, where the intended
   * lookup shows Neutral at level 3.
   */
  lemma InheritedNameEscapesFallback(name: string)
    requires name in ObjectPrototypeMembers
    ensures InfoAsWritten(Some(name)) == MeterData(None, None)
    ensures CountTrue(SegmentsAsWritten(InfoAsWritten(Some(name)).level)) == 0
    ensures Info(Some(name)) == QualityInfo(3, "Neutral")
  {
    CountBelow(MaxLevel, 0);
  }

  /** For every other quality the code and the intended lookup agree. */
  lemma AsWrittenAgreesElsewhere(quality: Option<string>)
    requires quality.None? || quality.value !in ObjectPrototypeMembers
    ensures InfoAsWritten(quality) == MeterData(Some(Info(quality).level), Some(Info(quality).caption))
  {
  }
}

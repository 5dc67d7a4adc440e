/** The match score gauge (scholarlens/components/match-score-gauge.tsx): a
    ring and a number coloured by score band, sized by a size name. */
module MatchScoreGauge {
  import opened Types
  import opened Strings

  const Green := "text-green-600"
  const Yellow := "text-yellow-600"
  const Orange := "text-orange-600"
  const Red := "text-red-600"

  /** `getColor`: four bands, from 80, 60 and 40; exactly one holds for every
      score. */
  function Color(score: real): (c: string)
    ensures c == Green <==> score >= 80.0
    ensures c == Yellow <==> 60.0 <= score < 80.0
    ensures c == Orange <==> 40.0 <= score < 60.0
    ensures c == Red <==> score < 40.0
  {
    if score >= 80.0 then Green
    else if score >= 60.0 then Yellow
    else if score >= 40.0 then Orange
    else Red
  }

  /** The order of the bands, red lowest. */
  function ColorRank(c: string): nat {
    if c == Green then 3 else if c == Yellow then 2 else if c == Orange then 1 else 0
  }

  /** A higher score never gets a lower band. */
  lemma ColorMonotone(a: real, b: real)
    requires a <= b
    ensures ColorRank(Color(a)) <= ColorRank(Color(b))
  {
  }

  const Small := "w-16 h-16 text-lg"
  const Large := "w-32 h-32 text-4xl"
  const Medium := "w-24 h-24 text-2xl"

  const DefaultSize := "md"

  /** `getSizeClasses`: "sm" and "lg" by name, anything else medium. */
  function SizeClasses(size: string): (c: string)
    ensures size == "sm" ==> c == Small
    ensures size == "lg" ==> c == Large
    ensures size != "sm" && size != "lg" ==> c == Medium
  {
    if size == "sm" then Small else if size == "lg" then Large else Medium
  }

  /** What the gauge renders, less the ring's geometry. */
  datatype GaugeView = GaugeView(svgClass: string, ringClass: string, numberClass: string, number: int)

  const RingSuffix := " transition-all duration-500"
  const NumberPrefix := "absolute inset-0 flex items-center justify-center font-bold "

  /** The gauge for a score and an optional size (absent means "md"). */
  function Gauge(score: real, size: Option<string>): (v: GaugeView)
    ensures v.svgClass == SizeClasses(size.GetOr(DefaultSize))
    ensures v.number == Round(score)
  {
    var color := Color(score);
    GaugeView(SizeClasses(size.GetOr(DefaultSize)), color + RingSuffix, NumberPrefix + color, Round(score))
  }

  /** Without a size the gauge is medium. */
  lemma DefaultIsMedium(score: real)
    ensures Gauge(score, None).svgClass == Medium
  {
  }

  /** The ring and the number carry the same colour class, the score's band. */
  lemma RingMatchesNumber(score: real, size: Option<string>)
    ensures var v := Gauge(score, size);
      && v.ringClass[..|Color(score)|] == Color(score)
      && v.numberClass[|NumberPrefix|..] == Color(score)
  {
    var v := Gauge(score, size);
    assert v.ringClass == Color(score) + RingSuffix;
    assert v.numberClass == NumberPrefix + Color(score);
  }

  /** The number shown is the score to the nearest integer. */
  lemma NumberNearScore(score: real, size: Option<string>)
    ensures var n := Gauge(score, size).number;
      score - 0.5 < n as real <= score + 0.5
  {
  }
}

/** `frontend/components/CircularProgress.tsx`: a ring showing a score out
    of `maxScore` (default 10), its colour and label chosen by the same four
    score bands.  `Math.PI` is left abstract: the circumference is a
    parameter. */
module CircularProgress {
  import opened Wrappers

  const DefaultMaxScore: real := 10.0
  const DefaultSize: real := 200.0
  const DefaultStrokeWidth: real := 12.0

  /** The ring's geometry once its optional props are resolved. */
  datatype Ring = Ring(maxScore: real, radius: real)

  /** The destructured props with their defaults: an absent `maxScore` is
      10, an absent `size` 200 and an absent `strokeWidth` 12. */
  function Props(maxScore: Option<real>, size: Option<real>, strokeWidth: Option<real>): (g: Ring)
    ensures maxScore.None? ==> g.maxScore == DefaultMaxScore
    ensures maxScore.Some? ==> g.maxScore == maxScore.value
    ensures size.None? && strokeWidth.None? ==> g.radius == 94.0
  {
    var s := if size.Some? then size.value else DefaultSize;
    var w := if strokeWidth.Some? then strokeWidth.value else DefaultStrokeWidth;
    Ring(if maxScore.Some? then maxScore.value else DefaultMaxScore, Radius(s, w))
  }

  function Percentage(score: real, maxScore: real): real
    requires maxScore != 0.0
  {
    score / maxScore * 100.0
  }

  function Radius(size: real, strokeWidth: real): real { (size - strokeWidth) / 2.0 }

  /** The dash offset: the part of the ring left empty.  For a score
      between 0 and `maxScore` it lies between 0 and the circumference. */
  function Offset(score: real, maxScore: real, circumference: real): (r: real)
    requires maxScore != 0.0
    ensures 0.0 < maxScore && 0.0 <= score <= maxScore && 0.0 <= circumference ==> 0.0 <= r <= circumference
  {
    circumference - (Percentage(score, maxScore) / 100.0) * circumference
  }

  /** The offset is `C·(1 - score/maxScore)`: the whole ring empty at 0, full
      at `maxScore`, halfway at half; a higher score never empties more. */
  lemma OffsetSpec(score: real, maxScore: real, circumference: real)
    requires maxScore != 0.0
    ensures Offset(score, maxScore, circumference) == circumference * (1.0 - score / maxScore)
    ensures Offset(0.0, maxScore, circumference) == circumference
    ensures Offset(maxScore, maxScore, circumference) == 0.0
    ensures Offset(maxScore / 2.0, maxScore, circumference) == circumference / 2.0
  {
    assert Percentage(score, maxScore) / 100.0 == score / maxScore;
    assert maxScore / maxScore == 1.0;
    assert maxScore / 2.0 / maxScore == 0.5;
  }

  /** Without a `maxScore` prop the score is out of 10: the offset is
      `C·(1 - score/10)`, the ring is empty at 0, half full at 5 and full
      at 10. */
  lemma DefaultMaxScoreOffset(score: real, size: Option<real>, strokeWidth: Option<real>, circumference: real)
    ensures var m := Props(None, size, strokeWidth).maxScore;
      && Offset(score, m, circumference) == circumference * (1.0 - score / 10.0)
      && Offset(0.0, m, circumference) == circumference
      && Offset(5.0, m, circumference) == circumference / 2.0
      && Offset(10.0, m, circumference) == 0.0
  {
    OffsetSpec(score, DefaultMaxScore, circumference);
    OffsetSpec(5.0, DefaultMaxScore, circumference);
  }

  lemma OffsetMonotone(s1: real, s2: real, maxScore: real, circumference: real)
    requires 0.0 < maxScore && 0.0 <= circumference && s1 <= s2
    ensures Offset(s2, maxScore, circumference) <= Offset(s1, maxScore, circumference)
  {
    OffsetSpec(s1, maxScore, circumference);
    OffsetSpec(s2, maxScore, circumference);
    var q1, q2 := s1 / maxScore, s2 / maxScore;
    assert (q2 - q1) * maxScore == s2 - s1;
    assert q1 <= q2;
    assert circumference * (1.0 - q1) - circumference * (1.0 - q2) == circumference * (q2 - q1);
  }

  /** With the default props the radius is 94. */
  lemma DefaultRadius()
    ensures Radius(DefaultSize, DefaultStrokeWidth) == 94.0
  {
  }

  /** The four bands, from the top: 8 and up, 6 and up, 4 and up, below. */
  function Band(score: real): (b: nat)
    ensures b <= 3
  {
    if score >= 8.0 then 0 else if score >= 6.0 then 1 else if score >= 4.0 then 2 else 3
  }

  const Colors: seq<string> := ["#22c55e", "#eab308", "#f97316", "#ef4444"]
  const Labels: seq<string> := ["Excellent", "Good", "Fair", "Needs Work"]

  /** `getColor`: one of the four colours, green exactly from 8 up and red
      exactly below 4. */
  function Color(score: real): (c: string)
    ensures c in Colors
    ensures c == Colors[0] <==> score >= 8.0
    ensures c == Colors[3] <==> score < 4.0
  {
    if score >= 8.0 then "#22c55e"
    else if score >= 6.0 then "#eab308"
    else if score >= 4.0 then "#f97316"
    else "#ef4444"
  }

  /** `getLabel`: one of the four labels. */
  function Label(score: real): (l: string)
    ensures l in Labels
  {
    if score >= 8.0 then "Excellent"
    else if score >= 6.0 then "Good"
    else if score >= 4.0 then "Fair"
    else "Needs Work"
  }

  /** Colour and label always come from the same band: green with
      Excellent, yellow with Good, orange with Fair, red with Needs Work. */
  lemma SameBand(score: real)
    ensures Color(score) == Colors[Band(score)] && Label(score) == Labels[Band(score)]
    ensures Color(score) == "#22c55e" <==> Label(score) == "Excellent"
    ensures Color(score) == "#eab308" <==> Label(score) == "Good"
    ensures Color(score) == "#f97316" <==> Label(score) == "Fair"
    ensures Color(score) == "#ef4444" <==> Label(score) == "Needs Work"
  {
  }

  /** Each band is exactly its score range. */
  lemma BandRanges(score: real)
    ensures Label(score) == "Excellent" <==> score >= 8.0
    ensures Label(score) == "Good" <==> 6.0 <= score < 8.0
    ensures Label(score) == "Fair" <==> 4.0 <= score < 6.0
    ensures Label(score) == "Needs Work" <==> score < 4.0
  {
  }

  /** A higher score never lands in a lower band. */
  lemma BandMonotone(s1: real, s2: real)
    requires s1 <= s2
    ensures Band(s2) <= Band(s1)
  {
  }
}

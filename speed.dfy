/**
 * The pace wording the service puts into the prompt for a playback speed
 * multiplier (`getSpeedDescription`). Only comparisons are made on the
 * speed, so it is modelled as a real number.
 */
module Speed {

  const VerySlow: string := "very slow"
  const Slow: string := "slow"
  const Normal: string := "normal"
  const Fast: string := "fast"
  const VeryFast: string := "very fast"

  /** The five pace labels, from slowest to fastest. */
  const Labels: seq<string> := [VerySlow, Slow, Normal, Fast, VeryFast]

  /** The speed multipliers the speed selector offers. */
  const UiSpeeds: seq<real> := [0.75, 1.0, 1.25, 1.5]

  /** `getSpeedDescription`: the first threshold the speed falls under decides. */
  function SpeedDescription(speed: real): (r: string)
    ensures r in Labels
    ensures r == VerySlow <==> speed < 0.75
    ensures r == Slow <==> 0.75 <= speed < 0.9
    ensures r == Normal <==> 0.9 <= speed <= 1.1
    ensures r == Fast <==> 1.1 < speed < 1.5
    ensures r == VeryFast <==> 1.5 <= speed
  {
    if speed < 0.75 then VerySlow
    else if speed < 0.9 then Slow
    else if speed <= 1.1 then Normal
    else if speed < 1.5 then Fast
    else VeryFast
  }

  /** Position of a label in the slow-to-fast order. */
  function PaceRank(pace: string): (k: nat)
    requires pace in Labels
    ensures k < |Labels| && Labels[k] == pace
  {
    if pace == VerySlow then 0
    else if pace == Slow then 1
    else if pace == Normal then 2
    else if pace == Fast then 3
    else 4
  }

  /** The labels are pairwise different, so each speed gets exactly one. */
  lemma LabelsDistinct()
    ensures forall i, j :: 0 <= i < j < |Labels| ==> Labels[i] != Labels[j]
  {
  }

  /** A faster speed never gets a slower label. */
  lemma SpeedMonotone(s1: real, s2: real)
    requires s1 <= s2
    ensures PaceRank(SpeedDescription(s1)) <= PaceRank(SpeedDescription(s2))
  {
  }

  /** The boundary values fall into the upper bucket, except 1.1 which is still normal. */
  lemma Boundaries()
    ensures SpeedDescription(0.75) == Slow
    ensures SpeedDescription(0.9) == Normal
    ensures SpeedDescription(1.1) == Normal
    ensures SpeedDescription(1.5) == VeryFast
  {
  }

  /** The four speeds offered by the selector get four different, increasing labels. */
  lemma UiSpeedLabels()
    ensures [SpeedDescription(UiSpeeds[0]), SpeedDescription(UiSpeeds[1]),
             SpeedDescription(UiSpeeds[2]), SpeedDescription(UiSpeeds[3])]
            == [Slow, Normal, Fast, VeryFast]
  {
  }
}

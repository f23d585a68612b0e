/**
 * Percentages, letter grades and grade points.
 *
 * `GradeCalculator` (shared) and the Deno services compute the same
 * percentage, rounded to two decimals with `Math.round`, which is
 * round-half-up: `Math.round(x) == floor(x + 0.5)`. Numbers are modelled as
 * exact reals.
 *
 * The shared letter lookup searches `GRADE_SCALE` for a band with
 * `min <= p <= max`; since the bands have integer bounds, a percentage
 * between two bands (96.5, say) matches none and falls through to "F". The
 * Deno services instead use a ladder of lower thresholds, which has no gaps.
 * `BandedLetter` is the lookup as written, `Letter` the threshold lookup the
 * scale evidently intends; the two agree on every integer percentage and
 * `Letter` equals the Deno ladder everywhere.
 */
module GradeCalculator {
  import opened Config

  /** `Math.round(x)`. */
  function Round(x: real): (n: int)
    ensures x - 0.5 < n as real <= x + 0.5
  {
    (x + 0.5).Floor
  }

  /** `Math.round(x * 100) / 100`. */
  function Round2(x: real): (r: real)
    ensures (r * 100.0).Floor as real == r * 100.0
    ensures x - 0.005 < r <= x + 0.005
  {
    Round(x * 100.0) as real / 100.0
  }

  /** Rounding to two decimals keeps a value inside any whole-number range it started in. */
  lemma {:induction false} Round2Within(x: real, lo: int, hi: int)
    requires lo as real <= x <= hi as real
    ensures lo as real <= Round2(x) <= hi as real
  {
    var n := Round(x * 100.0);
    assert (lo * 100) as real <= x * 100.0 <= (hi * 100) as real;
    assert lo * 100 <= n <= hi * 100;
  }

  /** A score within a positive maximum is between 0 and 100 percent of it. */
  lemma RatioInRange(score: real, maxScore: real)
    requires 0.0 <= score <= maxScore && maxScore != 0.0
    ensures 0.0 <= score / maxScore * 100.0 <= 100.0
  {
    var q := score / maxScore;
    assert q * maxScore == score;
    assert q <= 1.0 by {
      assert (1.0 - q) * maxScore == maxScore - score;
    }
  }

  /** `calculatePercentage(score, maxScore)`: 0 for a zero maximum. */
  function CalculatePercentage(score: real, maxScore: real): (p: real)
    ensures maxScore == 0.0 ==> p == 0.0
    ensures (p * 100.0).Floor as real == p * 100.0
    ensures maxScore != 0.0 ==> score / maxScore * 100.0 - 0.005 < p <= score / maxScore * 100.0 + 0.005
    ensures 0.0 <= score <= maxScore ==> 0.0 <= p <= 100.0
  {
    if maxScore == 0.0 then 0.0
    else
      var exact := score / maxScore * 100.0;
      if 0.0 <= score <= maxScore then
        RatioInRange(score, maxScore);
        Round2Within(exact, 0, 100);
        Round2(exact)
      else
        Round2(exact)
  }

  /** The eleven letters, best first, as `GRADE_SCALE` lists them. */
  const LETTERS: seq<string> := ["A+", "A", "A-", "B+", "B", "B-", "C+", "C", "C-", "D", "F"]

  /** A band `min <= p <= max`. */
  predicate InBand(b: Band, p: real)
  {
    b.min as real <= p <= b.max as real
  }

  /**
   * The `for ... of Object.entries(GRADE_SCALE)` search from position `from`:
   * the first band holding `p`, or `|bands|` when none does.
   */
  function FirstBand(bands: seq<Band>, p: real, from: nat): (k: nat)
    requires from <= |bands|
    ensures from <= k <= |bands|
    ensures k < |bands| ==> InBand(bands[k], p)
    ensures forall j :: from <= j < k ==> !InBand(bands[j], p)
    decreases |bands| - from
  {
    if from == |bands| then from
    else if InBand(bands[from], p) then from
    else FirstBand(bands, p, from + 1)
  }

  /** Shared `calculateLetterGrade(percentage)`, as written. */
  function BandedLetter(p: real): (l: string)
    ensures (exists i :: 0 <= i < |GradeScale()| && InBand(GradeScale()[i], p)) ==>
              exists i :: 0 <= i < |GradeScale()| && InBand(GradeScale()[i], p) && l == GradeScale()[i].letter
    ensures (forall i :: 0 <= i < |GradeScale()| ==> !InBand(GradeScale()[i], p)) ==> l == "F"
  {
    var k := FirstBand(GradeScale(), p, 0);
    if k < |GradeScale()| then GradeScale()[k].letter else "F"
  }

  /** The Deno `calculateLetterGrade(percentage)`: a ladder of lower thresholds. */
  function LadderLetter(p: real): (l: string)
    ensures l == "A+" <==> p >= 97.0
    ensures l == "F" <==> p < 60.0
  {
    if p >= 97.0 then "A+"
    else if p >= 93.0 then "A"
    else if p >= 90.0 then "A-"
    else if p >= 87.0 then "B+"
    else if p >= 83.0 then "B"
    else if p >= 80.0 then "B-"
    else if p >= 77.0 then "C+"
    else if p >= 73.0 then "C"
    else if p >= 70.0 then "C-"
    else if p >= 60.0 then "D"
    else "F"
  }

  /** The ladder is total over the eleven letters; anything from 97 up is "A+", anything under 60 "F". */
  lemma {:induction false} LadderLetterTotal(p: real)
    ensures LadderLetter(p) in LETTERS
    ensures p >= 97.0 ==> LadderLetter(p) == "A+"
    ensures p < 60.0 ==> LadderLetter(p) == "F"
  {
    LadderLetterOfRung(p);
  }

  /** From position `from`, the first band whose lower bound `p` reaches, or `|bands|` when none does. */
  function FirstReached(bands: seq<Band>, p: real, from: nat): (k: nat)
    requires from <= |bands|
    ensures from <= k <= |bands|
    ensures k < |bands| ==> bands[k].min as real <= p
    ensures forall j :: from <= j < k ==> p < bands[j].min as real
    decreases |bands| - from
  {
    if from == |bands| then from
    else if bands[from].min as real <= p then from
    else FirstReached(bands, p, from + 1)
  }

  /** A position meeting the two conditions of `FirstReached` is the one it finds. */
  lemma {:induction false} FirstReachedIs(bands: seq<Band>, p: real, c: nat)
    requires c <= |bands|
    requires c < |bands| ==> bands[c].min as real <= p
    requires forall j :: 0 <= j < c ==> p < bands[j].min as real
    ensures FirstReached(bands, p, 0) == c
  {
  }

  /**
   * The band the intended letter comes from: the best band whose minimum
   * the percentage reaches, 11 when it reaches none (a negative value).
   */
  function LetterBand(p: real): (k: nat)
    ensures k <= |GradeScale()|
    ensures k < |GradeScale()| <==> p >= 0.0
    ensures k < |GradeScale()| ==> GradeScale()[k].min as real <= p
    ensures 0 < k ==> p < GradeScale()[k - 1].min as real
  {
    FirstReached(GradeScale(), p, 0)
  }

  /** The letter grade the scale intends: that of the best band whose minimum `p` reaches, "F" below every band. */
  function Letter(p: real): (l: string)
    ensures p < 0.0 ==> l == "F"
    ensures 0.0 <= p ==> GradeScale()[LetterBand(p)].min as real <= p && l == GradeScale()[LetterBand(p)].letter
  {
    if LetterBand(p) < |GradeScale()| then GradeScale()[LetterBand(p)].letter else "F"
  }

  /** The rung of the Deno ladder a percentage lands on. */
  function LadderRung(p: real): (c: nat)
    ensures c <= |GradeScale()|
  {
    if p >= 97.0 then 0 else if p >= 93.0 then 1 else if p >= 90.0 then 2
    else if p >= 87.0 then 3 else if p >= 83.0 then 4 else if p >= 80.0 then 5
    else if p >= 77.0 then 6 else if p >= 73.0 then 7 else if p >= 70.0 then 8
    else if p >= 60.0 then 9 else if p >= 0.0 then 10 else 11
  }

  /** The band the intended lookup picks is the rung of the Deno ladder, for every real percentage. */
  lemma {:induction false} LetterBandIsRung(p: real)
    ensures LetterBand(p) == LadderRung(p)
  {
    var bands := GradeScale();
    var c := LadderRung(p);
    if c < 11 {
      assert bands[c].min as real <= p;
    }
    if c > 0 {
      assert p < bands[c - 1].min as real;
      forall j | 0 <= j < c ensures p < bands[j].min as real {
        if j < c - 1 {
          BandsDescend(j, c - 1);
        }
      }
    }
    FirstReachedIs(bands, p, c);
  }

  /** The intended letter is the Deno ladder's, for every real percentage. */
  lemma {:induction false} LetterIsLadder(p: real)
    ensures Letter(p) == LadderLetter(p)
  {
    var c := LadderRung(p);
    LetterBandIsRung(p);
    LadderLetterOfRung(p);
    if c < 11 {
      ScaleLetters();
      assert Letter(p) == GradeScale()[c].letter;
    } else {
      assert Letter(p) == "F";
    }
  }

  /** The ladder's letter is the one `LETTERS` lists at its rung, "F" below zero. */
  lemma LadderLetterOfRung(p: real)
    ensures LadderLetter(p) == LETTERS[if LadderRung(p) < 11 then LadderRung(p) else 10]
  {
  }

  /** `GRADE_SCALE` lists the eleven letters in order. */
  lemma ScaleLetters()
    ensures forall i :: 0 <= i < |GradeScale()| ==> GradeScale()[i].letter == LETTERS[i]
  {
  }

  /** A percentage inside a band gets that band's letter from the intended lookup. */
  lemma {:induction false} LetterOfBand(p: real, i: nat)
    requires i < |GradeScale()| && InBand(GradeScale()[i], p)
    ensures LetterBand(p) == i
    ensures Letter(p) == GradeScale()[i].letter
  {
    var bands := GradeScale();
    forall j | 0 <= j < i ensures p < bands[j].min as real {
      BandsDescend(j, i);
    }
    FirstReachedIs(bands, p, i);
  }

  /** The search as written agrees with the intended letter on every integer percentage. */
  lemma {:induction false} BandedAgreesOnIntegers(n: int)
    requires 0 <= n <= 100
    ensures BandedLetter(n as real) == Letter(n as real)
  {
    var i := BandOf(n);
    assert InBand(GradeScale()[i], n as real);
    var l := BandedLetter(n as real);
    var k :| 0 <= k < |GradeScale()| && InBand(GradeScale()[k], n as real) && l == GradeScale()[k].letter;
    LetterOfBand(n as real, k);
  }

  /** Finding: 96.5, which `calculatePercentage(193, 200)` yields, gets "F" from the search as written. */
  lemma BandedGapCounterexample()
    ensures CalculatePercentage(193.0, 200.0) == 96.5
    ensures BandedLetter(96.5) == "F"
    ensures Letter(96.5) == "A"
  {
    LetterIsLadder(96.5);
    assert 193.0 / 200.0 * 100.0 == 96.5;
    assert Round(9650.0) == 9650;
    GapBetweenBands();
  }

  /** A higher percentage never earns a worse band, and so never a worse letter. */
  lemma {:induction false} LetterMonotone(p: real, q: real)
    requires p <= q
    ensures LetterBand(q) <= LetterBand(p)
  {
    LetterBandIsRung(p);
    LetterBandIsRung(q);
  }

  /** Which `calculateLetterGrade` a report service calls. */
  datatype LetterRule =
    | Banded  // the shared `GradeCalculator.calculateLetterGrade` (Express, Bun)
    | Ladder  // the Deno report service's own threshold ladder

  /** The letter a report service following `rule` gives a percentage. */
  function LetterBy(rule: LetterRule, p: real): string
  {
    match rule
    case Banded => BandedLetter(p)
    case Ladder => LadderLetter(p)
  }

  /** `calculateGPA(letter)`: the grade-point table, from 0 to 4. */
  function Gpa(letter: string): (g: real)
    ensures 0.0 <= g <= 4.0
  {
    if letter == "A+" then 4.0 else if letter == "A" then 4.0
    else if letter == "A-" then 3.7 else if letter == "B+" then 3.3
    else if letter == "B" then 3.0 else if letter == "B-" then 2.7
    else if letter == "C+" then 2.3 else if letter == "C" then 2.0
    else if letter == "C-" then 1.7 else if letter == "D" then 1.0
    else 0.0
  }

  /** A letter outside the table is worth 0 points, and only "F" among the eleven is. */
  lemma GpaZeroIff(letter: string)
    ensures Gpa(letter) == 0.0 <==> letter == "F" || letter !in LETTERS
  {
  }

  /** Grade points never increase down `GRADE_SCALE`. */
  lemma {:induction false} GpaFollowsScale(i: nat, j: nat)
    requires i <= j < |GradeScale()|
    ensures Gpa(GradeScale()[j].letter) <= Gpa(GradeScale()[i].letter)
  {
    ScaleLetters();
    if i < j {
      GpaFollowsScale(i, j - 1);
      GpaStep(j - 1);
    }
  }

  /** Each letter of `LETTERS` is worth no more than the one before it. */
  lemma GpaStep(k: nat)
    requires k + 1 < |LETTERS|
    ensures Gpa(LETTERS[k + 1]) <= Gpa(LETTERS[k])
  {
  }

  /** So a higher percentage never earns fewer grade points. */
  lemma {:induction false} GpaMonotone(p: real, q: real)
    requires p <= q
    ensures Gpa(Letter(p)) <= Gpa(Letter(q))
  {
    if 0.0 <= p {
      var i, j := LetterBand(q), LetterBand(p);
      LetterMonotone(p, q);
      assert Letter(q) == GradeScale()[i].letter && Letter(p) == GradeScale()[j].letter;
      GpaFollowsScale(i, j);
    } else {
      assert Letter(p) == "F";
      assert Gpa("F") == 0.0;
    }
  }
}

/**
 * `APP_CONFIG` and `GRADE_SCALE`. The expiry strings "15m" and "7d" are read by
 * the token library's duration parser; here they are the second counts that
 * parser yields.
 */
module Config {

  const DEFAULT_PAGE_SIZE: nat := 10
  const MAX_PAGE_SIZE: nat := 100

  /** "15m". */
  const JWT_EXPIRY_SECONDS: nat := 15 * 60
  /** "7d". */
  const JWT_REFRESH_EXPIRY_SECONDS: nat := 7 * 24 * 60 * 60

  /** One row of `GRADE_SCALE`: the inclusive percentage range of a letter. */
  datatype Band = Band(min: int, max: int, letter: string)

  /** `GRADE_SCALE`, in the order `Object.entries` yields it (declaration order). */
  function GradeScale(): (bands: seq<Band>)
    ensures |bands| == 11
    ensures forall i :: 0 <= i < |bands| ==> 0 <= bands[i].min <= bands[i].max <= 100
    // descending and pairwise disjoint: each band ends below the previous one's start
    ensures forall i :: 0 < i < |bands| ==> bands[i].max < bands[i - 1].min
    ensures bands[0].max == 100 && bands[|bands| - 1].min == 0
    // adjacent integer ranges: no integer between two bands is left out
    ensures forall i :: 0 < i < |bands| ==> bands[i].max + 1 == bands[i - 1].min
  {
    [ Band(97, 100, "A+"), Band(93, 96, "A"), Band(90, 92, "A-"),
      Band(87, 89, "B+"), Band(83, 86, "B"), Band(80, 82, "B-"),
      Band(77, 79, "C+"), Band(73, 76, "C"), Band(70, 72, "C-"),
      Band(60, 69, "D"), Band(0, 59, "F") ]
  }

  /** The band index holding an integer percentage from 0 to 100. */
  function BandOf(n: int): (i: nat)
    requires 0 <= n <= 100
    ensures i < |GradeScale()|
    ensures GradeScale()[i].min <= n <= GradeScale()[i].max
  {
    if n >= 97 then 0 else if n >= 93 then 1 else if n >= 90 then 2
    else if n >= 87 then 3 else if n >= 83 then 4 else if n >= 80 then 5
    else if n >= 77 then 6 else if n >= 73 then 7 else if n >= 70 then 8
    else if n >= 60 then 9 else 10
  }

  /** Every integer from 0 to 100 lies in exactly one band. */
  lemma {:induction false} BandsCoverIntegersOnce(n: int, j: nat)
    requires 0 <= n <= 100
    requires j < |GradeScale()| && GradeScale()[j].min <= n <= GradeScale()[j].max
    ensures j == BandOf(n)
  {
    var bands := GradeScale();
    var i := BandOf(n);
    if j < i {
      BandsDescend(j, i);
    } else if i < j {
      BandsDescend(i, j);
    }
  }

  /** Bands further down the table lie entirely below earlier ones. */
  lemma {:induction false} BandsDescend(i: nat, j: nat)
    requires i < j < |GradeScale()|
    ensures GradeScale()[j].max < GradeScale()[i].min
    decreases j - i
  {
    if j > i + 1 {
      BandsDescend(i, j - 1);
    }
  }

  /** Between adjacent bands lie non-integers that no band covers, such as 96.5. */
  lemma GapBetweenBands()
    ensures forall i :: 0 <= i < |GradeScale()| ==>
              !(GradeScale()[i].min as real <= 96.5 <= GradeScale()[i].max as real)
  {
  }

  /** The default page size fits under the cap, and refresh tokens outlive access tokens. */
  lemma ConstantsConsistent()
    ensures DEFAULT_PAGE_SIZE <= MAX_PAGE_SIZE
    ensures JWT_EXPIRY_SECONDS == 900 && JWT_REFRESH_EXPIRY_SECONDS == 604800
    ensures JWT_EXPIRY_SECONDS < JWT_REFRESH_EXPIRY_SECONDS
  {
  }
}

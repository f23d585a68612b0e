/**
 * Student reports: `ReportService.getStudentReport` and
 * `ReportService.getPerformanceReport` of the three runtimes.
 *
 * A student's grades, in the order the database returned them (the Express
 * service sorts by `gradeDate` descending), are grouped by class id with a
 * `reduce` that pushes each grade onto its class's array; `Object.entries`
 * then yields the classes in the order of their first grade, since class
 * ids are 24-digit hexadecimal ObjectIds and never array indices. One
 * report is produced per class, summing scores and maximum scores.
 *
 * The runtimes differ on a missing class record: Express skips the class,
 * while Bun and Deno abort, since their `ClassService.getById` throws. The
 * database reads become parameters: the student's display name (`None` when
 * there is no student) and a map from class id to class name.
 *
 * Each runtime keeps its own rules for the letter and the overall GPA.
 * Express and Bun call the shared banded `calculateLetterGrade`
 * (`GradeCalculator.BandedLetter`), Deno its own threshold ladder
 * (`GradeCalculator.LadderLetter`); `LetterRule` names the choice. Express
 * guards `overallGPA` against an empty report list (0), while Bun and Deno
 * divide unguarded and give NaN.
 */
module Reports {
  import opened Wrappers
  import opened Http
  import opened ErrorTypes
  import opened Config
  import opened GradeCalculator

  /** The fields of a stored grade the reports read. */
  datatype Grade = Grade(id: string, classId: string, score: real, maxScore: real)

  /** `GradeReport`: one class's summary for one student. */
  datatype GradeReport = GradeReport(
    studentId: string,
    studentName: string,
    classId: string,
    className: string,
    grades: seq<Grade>,
    averageScore: real,
    averagePercentage: real,
    letterGrade: string)

  /** The result of `getPerformanceReport`; an `overallGPA` of `None` is NaN, which JSON serialises as `null`. */
  datatype PerformanceReport = PerformanceReport(
    studentId: string,
    overallGPA: Option<real>,
    totalClasses: nat,
    reports: seq<GradeReport>)

  // ---------------------------------------------------------------------
  // Grouping by class
  // ---------------------------------------------------------------------

  /** The class ids of `grades` in the order of their first grade. */
  function ClassOrder(grades: seq<Grade>): (keys: seq<string>)
    ensures |keys| <= |grades|
    ensures keys == [] <==> grades == []
  {
    if grades == [] then []
    else
      var rest := ClassOrder(grades[..|grades| - 1]);
      var c := grades[|grades| - 1].classId;
      if c in rest then rest else rest + [c]
  }

  /** The grades of class `c`, in their original order. */
  function OfClass(grades: seq<Grade>, c: string): (group: seq<Grade>)
    ensures |group| <= |grades|
  {
    if grades == [] then []
    else
      var last := grades[|grades| - 1];
      OfClass(grades[..|grades| - 1], c) + (if last.classId == c then [last] else [])
  }

  /** A class's group holds exactly the grades of that class. */
  lemma {:induction false} OfClassMembers(grades: seq<Grade>, c: string, g: Grade)
    ensures g in OfClass(grades, c) <==> g in grades && g.classId == c
  {
    if grades != [] {
      var init := grades[..|grades| - 1];
      OfClassMembers(init, c, g);
      assert grades == init + [grades[|grades| - 1]];
    }
  }

  /** A class is listed exactly when its group is non-empty. */
  lemma {:induction false} ClassOrderListsGroups(grades: seq<Grade>, c: string)
    ensures c in ClassOrder(grades) <==> OfClass(grades, c) != []
  {
    if grades != [] {
      ClassOrderListsGroups(grades[..|grades| - 1], c);
    }
  }

  /** No class is listed twice. */
  lemma {:induction false} ClassOrderDistinct(grades: seq<Grade>)
    ensures forall i, j :: 0 <= i < j < |ClassOrder(grades)| ==> ClassOrder(grades)[i] != ClassOrder(grades)[j]
  {
    if grades != [] {
      ClassOrderDistinct(grades[..|grades| - 1]);
    }
  }

  /** Each grade lands in the group of its own class, and in no other; that class is listed. */
  lemma {:induction false} GradeInExactlyOneGroup(grades: seq<Grade>, g: Grade, c: string)
    requires g in grades
    ensures g.classId in ClassOrder(grades)
    ensures g in OfClass(grades, c) <==> c == g.classId
  {
    OfClassMembers(grades, c, g);
    OfClassMembers(grades, g.classId, g);
    ClassOrderListsGroups(grades, g.classId);
  }

  /** The groups together hold every grade exactly once: their sizes add up to the input's. */
  lemma {:induction false} GroupSizesAddUp(grades: seq<Grade>)
    ensures SizeOfGroups(grades, ClassOrder(grades)) == |grades|
  {
    if grades != [] {
      var init := grades[..|grades| - 1];
      var last := grades[|grades| - 1];
      assert grades == init + [last];
      GroupSizesAddUp(init);
      var keys := ClassOrder(init);
      ClassOrderDistinct(init);
      GroupSizesStep(init, last, keys);
      if last.classId !in keys {
        ClassOrderListsGroups(init, last.classId);
        SizeOfGroupsAppend(grades, keys, last.classId);
        assert OfClass(grades, last.classId) == [last];
      }
    }
  }

  /** The summed sizes of the groups of `keys`. */
  function SizeOfGroups(grades: seq<Grade>, keys: seq<string>): nat
  {
    if keys == [] then 0
    else SizeOfGroups(grades, keys[..|keys| - 1]) + |OfClass(grades, keys[|keys| - 1])|
  }

  /** Appending one more key adds its group's size. */
  lemma {:induction false} SizeOfGroupsAppend(grades: seq<Grade>, keys: seq<string>, c: string)
    ensures SizeOfGroups(grades, keys + [c]) == SizeOfGroups(grades, keys) + |OfClass(grades, c)|
  {
    assert (keys + [c])[..|keys|] == keys;
  }

  /**
   * Adding one grade to the input grows by one the group of its class, if
   * that class is among `keys`, and leaves the other groups alone.
   */
  lemma {:induction false} GroupSizesStep(init: seq<Grade>, last: Grade, keys: seq<string>)
    requires forall i, j :: 0 <= i < j < |keys| ==> keys[i] != keys[j]
    ensures SizeOfGroups(init + [last], keys)
         == SizeOfGroups(init, keys) + (if last.classId in keys then 1 else 0)
  {
    var grades := init + [last];
    assert grades[..|grades| - 1] == init;
    if keys != [] {
      var front := keys[..|keys| - 1];
      var k := keys[|keys| - 1];
      GroupSizesStep(init, last, front);
      assert keys == front + [k];
      assert last.classId in keys <==> last.classId in front || last.classId == k;
      assert k !in front;
    }
  }

  /** The object the `reduce` builds: each class id mapped to the array of its grades. */
  function GroupMap(grades: seq<Grade>): (m: map<string, seq<Grade>>)
    ensures forall c :: c in m ==> m[c] != []
  {
    if grades == [] then map[]
    else
      var m := GroupMap(grades[..|grades| - 1]);
      var g := grades[|grades| - 1];
      m[g.classId := (if g.classId in m then m[g.classId] else []) + [g]]
  }

  /** The object has a property for exactly the listed classes. */
  lemma {:induction false} GroupMapKeys(grades: seq<Grade>, c: string)
    ensures c in GroupMap(grades) <==> c in ClassOrder(grades)
  {
    if grades != [] {
      GroupMapKeys(grades[..|grades| - 1], c);
    }
  }

  /** Each property of the object holds exactly its class's grades, in order. */
  lemma {:induction false} GroupMapGroups(grades: seq<Grade>, c: string)
    requires c in GroupMap(grades)
    ensures GroupMap(grades)[c] == OfClass(grades, c)
  {
    var init := grades[..|grades| - 1];
    var g := grades[|grades| - 1];
    if c in GroupMap(init) {
      GroupMapGroups(init, c);
    } else if c == g.classId {
      GroupMapKeys(init, c);
      ClassOrderListsGroups(init, c);
    }
  }

  /**
   * The `reduce` of the three report services: each grade is pushed onto
   * the array of its class, which is created at the class's first grade.
   */
  method GroupByClass(grades: seq<Grade>) returns (keys: seq<string>, groups: map<string, seq<Grade>>)
    ensures keys == ClassOrder(grades) && groups == GroupMap(grades)
    ensures forall c :: c in groups <==> c in keys
    ensures forall c :: c in groups ==> groups[c] == OfClass(grades, c) && groups[c] != []
  {
    keys := [];
    groups := map[];
    var i := 0;
    while i < |grades|
      invariant 0 <= i <= |grades|
      invariant keys == ClassOrder(grades[..i])
      invariant groups == GroupMap(grades[..i])
    {
      var g := grades[i];
      assert grades[..i + 1][..i] == grades[..i];
      assert GroupMap(grades[..i + 1])
          == groups[g.classId := (if g.classId in groups then groups[g.classId] else []) + [g]];
      GroupMapKeys(grades[..i], g.classId);
      if g.classId in groups {
        groups := groups[g.classId := groups[g.classId] + [g]];
      } else {
        assert [] + [g] == [g];
        groups := groups[g.classId := [g]];
        keys := keys + [g.classId];
      }
      i := i + 1;
    }
    assert grades[..i] == grades;
    forall c
      ensures c in groups <==> c in keys
      ensures c in groups ==> groups[c] == OfClass(grades, c) && groups[c] != []
    {
      GroupMapKeys(grades, c);
      if c in groups {
        GroupMapGroups(grades, c);
        ClassOrderListsGroups(grades, c);
      }
    }
  }

  // ---------------------------------------------------------------------
  // Per-class reports
  // ---------------------------------------------------------------------

  /** `classGrades.reduce((sum, g) => sum + g.score, 0)`. */
  function TotalScore(group: seq<Grade>): real
  {
    ScoreSum(group, |group|)
  }

  /** The summed score of the first `n` grades. */
  function ScoreSum(group: seq<Grade>, n: nat): real
    requires n <= |group|
  {
    if n == 0 then 0.0 else ScoreSum(group, n - 1) + group[n - 1].score
  }

  /** `classGrades.reduce((sum, g) => sum + g.maxScore, 0)`. */
  function TotalMaxScore(group: seq<Grade>): real
  {
    MaxScoreSum(group, |group|)
  }

  /** The summed maximum score of the first `n` grades. */
  function MaxScoreSum(group: seq<Grade>, n: nat): real
    requires n <= |group|
  {
    if n == 0 then 0.0 else MaxScoreSum(group, n - 1) + group[n - 1].maxScore
  }

  /** A grade as the grade schema admits it: a score from 0 up to its maximum. */
  predicate ScoreInRange(g: Grade)
  {
    0.0 <= g.score <= g.maxScore
  }

  /** Summed over in-range grades, the score stays from 0 up to the summed maximum. */
  lemma {:induction false} SumsInRange(group: seq<Grade>, n: nat)
    requires n <= |group|
    requires forall i :: 0 <= i < |group| ==> ScoreInRange(group[i])
    ensures 0.0 <= ScoreSum(group, n) <= MaxScoreSum(group, n)
  {
    if n > 0 {
      SumsInRange(group, n - 1);
      assert ScoreInRange(group[n - 1]);
    }
  }

  /**
   * The report of one class's group, with the letter of the runtime's
   * `calculateLetterGrade`: the shared banded lookup in Express and Bun,
   * the ladder in Deno.
   */
  function ClassReport(rule: LetterRule, studentId: string, studentName: string, classId: string,
                       className: string, group: seq<Grade>): GradeReport
    requires group != []
  {
    var percentage := CalculatePercentage(TotalScore(group), TotalMaxScore(group));
    GradeReport(studentId, studentName, classId, className, group,
                TotalScore(group) / |group| as real, percentage, LetterBy(rule, percentage))
  }

  /** Dividing by a positive count and multiplying back restores the total. */
  lemma MeanTimesCount(total: real, count: real)
    requires count > 0.0
    ensures total / count * count == total
  {
  }

  /** A total from 0 up to `hi * count` has a mean from 0 up to `hi`. */
  lemma MeanBound(total: real, count: real, hi: real)
    requires count >= 1.0 && 0.0 <= total <= hi * count
    ensures 0.0 <= total / count <= hi
  {
    assert hi - total / count == (hi * count - total) / count;
  }

  /** A class report names its student, its class and its grades, and its `averageScore` is their mean. */
  lemma ClassReportFields(rule: LetterRule, studentId: string, studentName: string, classId: string,
                          className: string, group: seq<Grade>)
    requires group != []
    ensures var r := ClassReport(rule, studentId, studentName, classId, className, group);
      && r.studentId == studentId && r.studentName == studentName
      && r.classId == classId && r.className == className && r.grades == group
      && r.averageScore * |group| as real == TotalScore(group)
  {
    MeanTimesCount(TotalScore(group), |group| as real);
  }

  /** A class report's percentage is 0 for a zero summed maximum, and from 0 to 100 for in-range scores. */
  lemma ClassReportPercentage(rule: LetterRule, studentId: string, studentName: string, classId: string,
                              className: string, group: seq<Grade>)
    requires group != []
    ensures var r := ClassReport(rule, studentId, studentName, classId, className, group);
      && (TotalMaxScore(group) == 0.0 ==> r.averagePercentage == 0.0)
      && ((forall i :: 0 <= i < |group| ==> ScoreInRange(group[i])) ==>
            0.0 <= r.averagePercentage <= 100.0)
  {
    if forall i :: 0 <= i < |group| ==> ScoreInRange(group[i]) {
      SumsInRange(group, |group|);
    }
  }

  /**
   * A class report's letter: with the Deno ladder, the intended `GRADE_SCALE`
   * letter of its percentage; with the banded lookup, the letter of a band
   * holding the percentage, and "F" when the percentage falls in no band.
   */
  lemma ClassReportLetter(rule: LetterRule, studentId: string, studentName: string, classId: string,
                          className: string, group: seq<Grade>)
    requires group != []
    ensures var r := ClassReport(rule, studentId, studentName, classId, className, group);
      && (rule == Ladder ==> r.letterGrade == Letter(r.averagePercentage))
      && (rule == Banded && (forall i :: 0 <= i < |GradeScale()| ==> !InBand(GradeScale()[i], r.averagePercentage)) ==>
            r.letterGrade == "F")
      && (rule == Banded && (exists i :: 0 <= i < |GradeScale()| && InBand(GradeScale()[i], r.averagePercentage)) ==>
            exists i :: 0 <= i < |GradeScale()| && InBand(GradeScale()[i], r.averagePercentage)
                        && r.letterGrade == GradeScale()[i].letter)
  {
    var r := ClassReport(rule, studentId, studentName, classId, className, group);
    LetterIsLadder(r.averagePercentage);
  }

  /** On a whole-number percentage from 0 to 100 the two lookups give a class the same letter. */
  lemma ClassReportLettersAgreeOnIntegers(studentId: string, studentName: string, classId: string,
                                          className: string, group: seq<Grade>, n: int)
    requires group != [] && 0 <= n <= 100
    requires CalculatePercentage(TotalScore(group), TotalMaxScore(group)) == n as real
    ensures ClassReport(Banded, studentId, studentName, classId, className, group).letterGrade
         == ClassReport(Ladder, studentId, studentName, classId, className, group).letterGrade
  {
    BandedAgreesOnIntegers(n);
    LetterIsLadder(n as real);
  }

  /** Finding at report level: one grade of 193 out of 200 is an "F" in Express and Bun but an "A" in Deno. */
  lemma ReportGapCounterexample(studentId: string, studentName: string, classId: string, className: string)
    ensures var group := [Grade("g", classId, 193.0, 200.0)];
      && ClassReport(Banded, studentId, studentName, classId, className, group).letterGrade == "F"
      && ClassReport(Ladder, studentId, studentName, classId, className, group).letterGrade == "A"
  {
    var group := [Grade("g", classId, 193.0, 200.0)];
    assert ScoreSum(group, 1) == ScoreSum(group, 0) + 193.0;
    assert MaxScoreSum(group, 1) == MaxScoreSum(group, 0) + 200.0;
    assert TotalScore(group) == 193.0 && TotalMaxScore(group) == 200.0;
    BandedGapCounterexample();
    LetterIsLadder(96.5);
    assert CalculatePercentage(TotalScore(group), TotalMaxScore(group)) == 96.5;
  }

  /** Every class in `keys` has a record and a non-empty array in `groups`. */
  ghost predicate Reportable(groups: map<string, seq<Grade>>, classes: map<string, string>, keys: seq<string>)
  {
    forall i :: 0 <= i < |keys| ==> keys[i] in classes && keys[i] in groups && groups[keys[i]] != []
  }

  /** The reports `getStudentReport` builds from the grouped grades for the classes `keys`, in that order. */
  function ReportsFor(rule: LetterRule, studentId: string, studentName: string, groups: map<string, seq<Grade>>,
                      classes: map<string, string>, keys: seq<string>): (rs: seq<GradeReport>)
    requires Reportable(groups, classes, keys)
    ensures |rs| == |keys|
  {
    if keys == [] then []
    else
      var k := keys[|keys| - 1];
      ReportsFor(rule, studentId, studentName, groups, classes, keys[..|keys| - 1])
        + [ClassReport(rule, studentId, studentName, k, classes[k], groups[k])]
  }

  /** One more class adds its report at the end. */
  lemma {:induction false} ReportsForAppend(rule: LetterRule, studentId: string, studentName: string,
                                            groups: map<string, seq<Grade>>,
                                            classes: map<string, string>, keys: seq<string>, k: string)
    requires Reportable(groups, classes, keys + [k])
    ensures Reportable(groups, classes, keys)
    ensures k in classes && k in groups && groups[k] != []
    ensures ReportsFor(rule, studentId, studentName, groups, classes, keys + [k])
         == ReportsFor(rule, studentId, studentName, groups, classes, keys)
              + [ClassReport(rule, studentId, studentName, k, classes[k], groups[k])]
  {
    assert (keys + [k])[..|keys|] == keys;
    assert (keys + [k])[|keys|] == k;
    assert forall i :: 0 <= i < |keys| ==> (keys + [k])[i] == keys[i];
  }

  /** Each report of `ReportsFor` is its class's `ClassReport`. */
  lemma {:induction false} ReportsForAt(rule: LetterRule, studentId: string, studentName: string,
                                        groups: map<string, seq<Grade>>,
                                        classes: map<string, string>, keys: seq<string>, i: nat)
    requires Reportable(groups, classes, keys) && i < |keys|
    ensures ReportsFor(rule, studentId, studentName, groups, classes, keys)[i]
         == ClassReport(rule, studentId, studentName, keys[i], classes[keys[i]], groups[keys[i]])
  {
    if i < |keys| - 1 {
      ReportsForAt(rule, studentId, studentName, groups, classes, keys[..|keys| - 1], i);
    }
  }

  /** Each report of `ReportsFor` names the student, its class and the class's record, and holds that class's array. */
  lemma {:induction false} ReportsForFields(rule: LetterRule, studentId: string, studentName: string,
                                            groups: map<string, seq<Grade>>,
                                            classes: map<string, string>, keys: seq<string>, i: nat)
    requires Reportable(groups, classes, keys) && i < |keys|
    ensures var r := ReportsFor(rule, studentId, studentName, groups, classes, keys)[i];
      && r.classId == keys[i] && r.className == classes[keys[i]]
      && r.grades == groups[keys[i]]
      && r.studentId == studentId && r.studentName == studentName
  {
    ReportsForAt(rule, studentId, studentName, groups, classes, keys, i);
  }

  /** Built from the student's grades, the i-th report holds exactly the grades of its class. */
  lemma {:induction false} ReportHoldsClassGrades(rule: LetterRule, studentId: string, studentName: string,
                                                  grades: seq<Grade>,
                                                  classes: map<string, string>, keys: seq<string>, i: nat)
    requires Reportable(GroupMap(grades), classes, keys) && i < |keys|
    ensures ReportsFor(rule, studentId, studentName, GroupMap(grades), classes, keys)[i].grades
         == OfClass(grades, keys[i])
  {
    ReportsForFields(rule, studentId, studentName, GroupMap(grades), classes, keys, i);
    GroupMapGroups(grades, keys[i]);
  }

  /**
   * The two letter rules build the same reports apart from the letter: the
   * i-th report of one is the i-th report of the other with its letter
   * replaced.
   */
  lemma {:induction false} ReportsDifferOnlyInLetter(studentId: string, studentName: string,
                                                     groups: map<string, seq<Grade>>,
                                                     classes: map<string, string>, keys: seq<string>, i: nat)
    requires Reportable(groups, classes, keys) && i < |keys|
    ensures var b := ReportsFor(Banded, studentId, studentName, groups, classes, keys)[i];
            var d := ReportsFor(Ladder, studentId, studentName, groups, classes, keys)[i];
      b == d.(letterGrade := b.letterGrade)
  {
    ReportsForAt(Banded, studentId, studentName, groups, classes, keys, i);
    ReportsForAt(Ladder, studentId, studentName, groups, classes, keys, i);
  }

  /** Where the i-th class's percentage is a whole number from 0 to 100, the two letter rules agree on it. */
  lemma {:induction false} ReportLettersAgreeOnIntegers(studentId: string, studentName: string,
                                                        groups: map<string, seq<Grade>>,
                                                        classes: map<string, string>, keys: seq<string>,
                                                        i: nat, n: int)
    requires Reportable(groups, classes, keys) && i < |keys| && 0 <= n <= 100
    requires ReportsFor(Ladder, studentId, studentName, groups, classes, keys)[i].averagePercentage == n as real
    ensures ReportsFor(Banded, studentId, studentName, groups, classes, keys)[i].letterGrade
         == ReportsFor(Ladder, studentId, studentName, groups, classes, keys)[i].letterGrade
  {
    ReportsForAt(Banded, studentId, studentName, groups, classes, keys, i);
    ReportsForAt(Ladder, studentId, studentName, groups, classes, keys, i);
    ClassReportLettersAgreeOnIntegers(studentId, studentName, keys[i], classes[keys[i]], groups[keys[i]], n);
  }

  /** Every class `ClassOrder` lists has a non-empty group. */
  lemma ListedClassesHaveGrades(grades: seq<Grade>)
    ensures forall i :: 0 <= i < |ClassOrder(grades)| ==> OfClass(grades, ClassOrder(grades)[i]) != []
  {
    forall i | 0 <= i < |ClassOrder(grades)| ensures OfClass(grades, ClassOrder(grades)[i]) != [] {
      ClassOrderListsGroups(grades, ClassOrder(grades)[i]);
    }
  }

  /** The keys whose class record exists, in order. */
  function Present(keys: seq<string>, classes: map<string, string>): (kept: seq<string>)
    ensures |kept| <= |keys|
  {
    if keys == [] then []
    else
      var last := keys[|keys| - 1];
      Present(keys[..|keys| - 1], classes) + (if last in classes then [last] else [])
  }

  /** `Present` keeps exactly the keys with a class record. */
  lemma {:induction false} PresentMembers(keys: seq<string>, classes: map<string, string>, c: string)
    ensures c in Present(keys, classes) <==> c in keys && c in classes
  {
    if keys != [] {
      PresentMembers(keys[..|keys| - 1], classes, c);
      assert keys == keys[..|keys| - 1] + [keys[|keys| - 1]];
    }
  }

  /** With every class record present, nothing is dropped. */
  lemma {:induction false} PresentAll(keys: seq<string>, classes: map<string, string>)
    requires forall i :: 0 <= i < |keys| ==> keys[i] in classes
    ensures Present(keys, classes) == keys
  {
    if keys != [] {
      PresentAll(keys[..|keys| - 1], classes);
      assert keys[..|keys| - 1] + [keys[|keys| - 1]] == keys;
    }
  }

  /**
   * Express `getStudentReport`: 404 when the student is missing; otherwise
   * one report per class in first-grade order, with the banded letter,
   * skipping classes whose record is missing.
   */
  method ExpressStudentReport(studentId: string, student: Option<string>, grades: seq<Grade>,
                              classes: map<string, string>)
    returns (r: Result<seq<GradeReport>, AppError>)
    ensures student.None? <==> r.Err?
    ensures r.Err? ==> r.error == NewAppError(NOT_FOUND, MSG_STUDENT_NOT_FOUND)
    ensures r.Ok? ==> Reportable(GroupMap(grades), classes, Present(ClassOrder(grades), classes))
    ensures r.Ok? ==> r.value == ReportsFor(Banded, studentId, student.value, GroupMap(grades), classes,
                                            Present(ClassOrder(grades), classes))
  {
    if student.None? {
      return Err(NewAppError(NOT_FOUND, MSG_STUDENT_NOT_FOUND));
    }
    var keys, groups := GroupByClass(grades);
    var reports := KeepingReports(studentId, student.value, keys, groups, classes);
    return Ok(reports);
  }

  /** The Express `for` loop over the grouped classes: a class without a record is skipped. */
  method KeepingReports(studentId: string, studentName: string, keys: seq<string>,
                        groups: map<string, seq<Grade>>, classes: map<string, string>)
    returns (reports: seq<GradeReport>)
    requires forall j :: 0 <= j < |keys| ==> keys[j] in groups && groups[keys[j]] != []
    ensures Reportable(groups, classes, Present(keys, classes))
    ensures reports == ReportsFor(Banded, studentId, studentName, groups, classes, Present(keys, classes))
  {
    reports := [];
    var i := 0;
    while i < |keys|
      invariant 0 <= i <= |keys|
      invariant Reportable(groups, classes, Present(keys[..i], classes))
      invariant reports == ReportsFor(Banded, studentId, studentName, groups, classes, Present(keys[..i], classes))
    {
      var classId := keys[i];
      if classId in classes {
        KeepingStep(Banded, studentId, studentName, groups, classes, keys, i, Present(keys[..i], classes));
        reports := reports + [ClassReport(Banded, studentId, studentName, classId, classes[classId], groups[classId])];
      } else {
        SkippingStep(keys, i, classes);
      }
      i := i + 1;
    }
    assert keys[..i] == keys;
  }

  /** A step of the Express loop over a class with a record: its report is added. */
  lemma {:induction false} KeepingStep(rule: LetterRule, studentId: string, studentName: string,
                                       groups: map<string, seq<Grade>>,
                                       classes: map<string, string>, keys: seq<string>, i: nat, kept: seq<string>)
    requires i < |keys| && keys[i] in classes && keys[i] in groups && groups[keys[i]] != []
    requires kept == Present(keys[..i], classes) && Reportable(groups, classes, kept)
    ensures Present(keys[..i + 1], classes) == kept + [keys[i]]
    ensures Reportable(groups, classes, kept + [keys[i]])
    ensures ReportsFor(rule, studentId, studentName, groups, classes, kept + [keys[i]])
         == ReportsFor(rule, studentId, studentName, groups, classes, kept)
            + [ClassReport(rule, studentId, studentName, keys[i], classes[keys[i]], groups[keys[i]])]
  {
    var k := keys[i];
    assert keys[..i + 1] == keys[..i] + [k];
    assert keys[..i + 1][..i] == keys[..i];
    assert Reportable(groups, classes, kept + [k]) by {
      assert forall j :: 0 <= j < |kept| ==> (kept + [k])[j] == kept[j];
    }
    ReportsForAppend(rule, studentId, studentName, groups, classes, kept, k);
  }

  /** A step of the Express loop over a class without a record: it is skipped. */
  lemma {:induction false} SkippingStep(keys: seq<string>, i: nat, classes: map<string, string>)
    requires i < |keys| && keys[i] !in classes
    ensures Present(keys[..i + 1], classes) == Present(keys[..i], classes)
  {
    assert keys[..i + 1][..i] == keys[..i];
  }

  /** The error a Bun or Deno `getById` throws for a missing record. */
  function NotFoundError(message: string): (t: Thrown)
    ensures IsErrorInstance(t) && NameOf(t) == Some("Error") && MessageOf(t) == Some(message)
    ensures !t.App?
  {
    SimpleError("Error", message)
  }

  /**
   * Bun (`rule` Banded) and Deno (`rule` Ladder) `getStudentReport`: a
   * missing student or a missing class record throws a plain `Error`, which
   * aborts the whole report.
   */
  method AbortingStudentReport(rule: LetterRule, studentId: string, student: Option<string>, grades: seq<Grade>,
                               classes: map<string, string>)
    returns (r: Result<seq<GradeReport>, Thrown>)
    ensures student.None? ==> r == Err(NotFoundError(MSG_STUDENT_NOT_FOUND))
    ensures student.Some? ==>
              (r.Ok? <==> forall i :: 0 <= i < |ClassOrder(grades)| ==> ClassOrder(grades)[i] in classes)
    ensures student.Some? && r.Err? ==> r.error == NotFoundError(MSG_CLASS_NOT_FOUND)
    ensures r.Ok? ==> Reportable(GroupMap(grades), classes, ClassOrder(grades))
    ensures r.Ok? ==> r.value == ReportsFor(rule, studentId, student.value, GroupMap(grades), classes, ClassOrder(grades))
  {
    if student.None? {
      return Err(NotFoundError(MSG_STUDENT_NOT_FOUND));
    }
    var keys, groups := GroupByClass(grades);
    r := AbortingReports(rule, studentId, student.value, keys, groups, classes);
  }

  /** The Bun/Deno `for` loop over the grouped classes: the first class without a record aborts it. */
  method AbortingReports(rule: LetterRule, studentId: string, studentName: string, keys: seq<string>,
                         groups: map<string, seq<Grade>>, classes: map<string, string>)
    returns (r: Result<seq<GradeReport>, Thrown>)
    requires forall j :: 0 <= j < |keys| ==> keys[j] in groups && groups[keys[j]] != []
    ensures r.Ok? <==> forall j :: 0 <= j < |keys| ==> keys[j] in classes
    ensures r.Err? ==> r.error == NotFoundError(MSG_CLASS_NOT_FOUND)
    ensures r.Ok? ==> Reportable(groups, classes, keys)
    ensures r.Ok? ==> r.value == ReportsFor(rule, studentId, studentName, groups, classes, keys)
  {
    var reports: seq<GradeReport> := [];
    var i := 0;
    while i < |keys|
      invariant 0 <= i <= |keys|
      invariant Reportable(groups, classes, keys[..i])
      invariant reports == ReportsFor(rule, studentId, studentName, groups, classes, keys[..i])
    {
      var classId := keys[i];
      if classId !in classes {
        return Err(NotFoundError(MSG_CLASS_NOT_FOUND));
      }
      AbortingStep(rule, studentId, studentName, groups, classes, keys, i);
      reports := reports + [ClassReport(rule, studentId, studentName, classId, classes[classId], groups[classId])];
      i := i + 1;
    }
    assert keys[..i] == keys;
    return Ok(reports);
  }

  /** One step of the Bun/Deno loop over a class whose record exists. */
  lemma {:induction false} AbortingStep(rule: LetterRule, studentId: string, studentName: string,
                                        groups: map<string, seq<Grade>>,
                                        classes: map<string, string>, keys: seq<string>, i: nat)
    requires i < |keys| && keys[i] in classes && keys[i] in groups && groups[keys[i]] != []
    requires Reportable(groups, classes, keys[..i])
    ensures Reportable(groups, classes, keys[..i + 1])
    ensures ReportsFor(rule, studentId, studentName, groups, classes, keys[..i + 1])
         == ReportsFor(rule, studentId, studentName, groups, classes, keys[..i])
            + [ClassReport(rule, studentId, studentName, keys[i], classes[keys[i]], groups[keys[i]])]
  {
    var k := keys[i];
    assert keys[..i + 1] == keys[..i] + [k];
    assert Reportable(groups, classes, keys[..i] + [k]) by {
      assert forall j :: 0 <= j < i ==> (keys[..i] + [k])[j] == keys[..i][j];
    }
    ReportsForAppend(rule, studentId, studentName, groups, classes, keys[..i], k);
  }

  /**
   * The three `getStudentReport`s side by side. Where every class record
   * exists, Express and Bun produce the same reports, and Deno the same
   * reports up to the letter (its ladder parts from the banded lookup on
   * percentages between two bands); where one is missing, Express drops
   * that class and Bun and Deno fail.
   */
  method StudentReportsCompared(studentId: string, student: string, grades: seq<Grade>,
                                classes: map<string, string>)
    returns (express: Result<seq<GradeReport>, AppError>, bun: Result<seq<GradeReport>, Thrown>,
             deno: Result<seq<GradeReport>, Thrown>)
    ensures express.Ok?
    ensures (forall i :: 0 <= i < |ClassOrder(grades)| ==> ClassOrder(grades)[i] in classes) <==> bun.Ok?
    ensures bun.Ok? <==> deno.Ok?
    ensures bun.Ok? ==> express.value == bun.value
    ensures deno.Ok? ==> |deno.value| == |express.value|
    ensures deno.Ok? ==>
              forall i :: 0 <= i < |deno.value| ==> express.value[i] == deno.value[i].(letterGrade := express.value[i].letterGrade)
  {
    express := ExpressStudentReport(studentId, Some(student), grades, classes);
    bun := AbortingStudentReport(Banded, studentId, Some(student), grades, classes);
    deno := AbortingStudentReport(Ladder, studentId, Some(student), grades, classes);
    if bun.Ok? {
      PresentAll(ClassOrder(grades), classes);
      forall i | 0 <= i < |deno.value|
        ensures express.value[i] == deno.value[i].(letterGrade := express.value[i].letterGrade)
      {
        ReportsDifferOnlyInLetter(studentId, student, GroupMap(grades), classes, ClassOrder(grades), i);
      }
    }
  }

  // ---------------------------------------------------------------------
  // Performance report
  // ---------------------------------------------------------------------

  /** `reports.reduce((sum, r) => sum + calculateGPA(r.letterGrade), 0)`. */
  function TotalGpa(reports: seq<GradeReport>): (t: real)
    ensures 0.0 <= t <= 4.0 * |reports| as real
  {
    GpaSum(reports, |reports|)
  }

  /** The summed grade points of the first `n` reports. */
  function GpaSum(reports: seq<GradeReport>, n: nat): (t: real)
    requires n <= |reports|
    ensures 0.0 <= t <= 4.0 * n as real
  {
    if n == 0 then 0.0 else GpaSum(reports, n - 1) + Gpa(reports[n - 1].letterGrade)
  }

  /**
   * Bun and Deno `overallGPA`, as written: the division by `reports.length`
   * is unguarded, so no reports give `0 / 0`, which is NaN (`None` here;
   * JSON serialises it as `null`).
   */
  function OverallGpaUnguarded(reports: seq<GradeReport>): (g: Option<real>)
    ensures g.None? <==> reports == []
    ensures g.Some? ==> 0.0 <= g.value <= 4.0
    ensures g.Some? ==> (g.value * 100.0).Floor as real == g.value * 100.0
    ensures g.Some? ==>
              TotalGpa(reports) / |reports| as real - 0.005 < g.value <= TotalGpa(reports) / |reports| as real + 0.005
  {
    if reports == [] then None
    else
      MeanGpaInRange(reports);
      Round2Within(TotalGpa(reports) / |reports| as real, 0, 4);
      Some(Round2(TotalGpa(reports) / |reports| as real))
  }

  /** The mean of per-class grade points lies within the grade-point range. */
  lemma MeanGpaInRange(reports: seq<GradeReport>)
    requires reports != []
    ensures 0.0 <= TotalGpa(reports) / |reports| as real <= 4.0
  {
    MeanBound(TotalGpa(reports), |reports| as real, 4.0);
  }

  /** Express `overallGPA`: the rounded mean grade points, and 0 when there are no reports. */
  function OverallGpa(reports: seq<GradeReport>): (g: real)
    ensures 0.0 <= g <= 4.0
    ensures reports == [] ==> g == 0.0
    ensures (g * 100.0).Floor as real == g * 100.0
    ensures reports != [] ==>
              TotalGpa(reports) / |reports| as real - 0.005 < g <= TotalGpa(reports) / |reports| as real + 0.005
  {
    if reports == [] then Round2(0.0)
    else
      MeanGpaInRange(reports);
      Round2Within(TotalGpa(reports) / |reports| as real, 0, 4);
      Round2(TotalGpa(reports) / |reports| as real)
  }

  /** Finding: a student with no graded class gets NaN from Bun and Deno but 0 from Express. */
  lemma NoReportsCounterexample()
    ensures OverallGpaUnguarded([]) == None
    ensures OverallGpa([]) == 0.0
  {
    assert Round(0.0) == 0;
  }

  /** Whenever there is at least one report, the two computations agree. */
  lemma GuardOnlyMattersForNoReports(reports: seq<GradeReport>)
    requires reports != []
    ensures OverallGpaUnguarded(reports) == Some(OverallGpa(reports))
  {
  }

  /** Express `getPerformanceReport` over the reports of `getStudentReport`. */
  function Performance(studentId: string, reports: seq<GradeReport>): (p: PerformanceReport)
    ensures p.studentId == studentId && p.reports == reports
    ensures p.totalClasses == |reports|
    ensures p.overallGPA == Some(OverallGpa(reports))
    ensures 0.0 <= p.overallGPA.value <= 4.0
    ensures reports == [] ==> p.overallGPA == Some(0.0)
  {
    PerformanceReport(studentId, Some(OverallGpa(reports)), |reports|, reports)
  }

  /** Bun and Deno `getPerformanceReport` over the reports of `getStudentReport`: NaN without reports. */
  function UnguardedPerformance(studentId: string, reports: seq<GradeReport>): (p: PerformanceReport)
    ensures p.studentId == studentId && p.reports == reports
    ensures p.totalClasses == |reports|
    ensures p.overallGPA == OverallGpaUnguarded(reports)
    ensures p.overallGPA.None? <==> reports == []
  {
    PerformanceReport(studentId, OverallGpaUnguarded(reports), |reports|, reports)
  }

  /** With at least one report the Express and the Bun/Deno performance reports coincide. */
  lemma PerformancesAgreeWithReports(studentId: string, reports: seq<GradeReport>)
    requires reports != []
    ensures UnguardedPerformance(studentId, reports) == Performance(studentId, reports)
  {
    GuardOnlyMattersForNoReports(reports);
  }

  /** Express `getPerformanceReport`: the student's 404 passes through. */
  method ExpressPerformanceReport(studentId: string, student: Option<string>, grades: seq<Grade>,
                                  classes: map<string, string>)
    returns (r: Result<PerformanceReport, AppError>)
    ensures student.None? <==> r.Err?
    ensures r.Err? ==> r.error == NewAppError(NOT_FOUND, MSG_STUDENT_NOT_FOUND)
    ensures r.Ok? ==> Reportable(GroupMap(grades), classes, Present(ClassOrder(grades), classes))
    ensures r.Ok? ==> r.value == Performance(studentId, ReportsFor(Banded, studentId, student.value, GroupMap(grades),
                                                                   classes, Present(ClassOrder(grades), classes)))
    ensures r.Ok? ==> r.value.totalClasses == |Present(ClassOrder(grades), classes)|
    ensures r.Ok? && r.value.totalClasses == 0 ==> r.value.overallGPA == Some(0.0)
  {
    var reports := ExpressStudentReport(studentId, student, grades, classes);
    if reports.Err? {
      return Err(reports.error);
    }
    return Ok(Performance(studentId, reports.value));
  }

  /** Bun (`rule` Banded) and Deno (`rule` Ladder) `getPerformanceReport`: any error of the report aborts it. */
  method AbortingPerformanceReport(rule: LetterRule, studentId: string, student: Option<string>, grades: seq<Grade>,
                                   classes: map<string, string>)
    returns (r: Result<PerformanceReport, Thrown>)
    ensures student.None? ==> r == Err(NotFoundError(MSG_STUDENT_NOT_FOUND))
    ensures student.Some? ==>
              (r.Ok? <==> forall i :: 0 <= i < |ClassOrder(grades)| ==> ClassOrder(grades)[i] in classes)
    ensures student.Some? && r.Err? ==> r.error == NotFoundError(MSG_CLASS_NOT_FOUND)
    ensures r.Ok? ==> Reportable(GroupMap(grades), classes, ClassOrder(grades))
    ensures r.Ok? ==> r.value == UnguardedPerformance(studentId, ReportsFor(rule, studentId, student.value,
                                                                            GroupMap(grades), classes, ClassOrder(grades)))
    ensures r.Ok? ==> r.value.totalClasses == |ClassOrder(grades)|
    ensures r.Ok? ==> (r.value.overallGPA.None? <==> grades == [])
  {
    var reports := AbortingStudentReport(rule, studentId, student, grades, classes);
    if reports.Err? {
      return Err(reports.error);
    }
    return Ok(UnguardedPerformance(studentId, reports.value));
  }
}

/**
 * Points, levels and learning progress. A user's points are kept per category and their total
 * decides the level through a fixed threshold table; a stored level is only ever raised. A
 * learner's progress through a module keeps the completed lesson and quiz ids as comma-separated
 * text. Database lookups are not part of this model: the records they return are the objects here,
 * and the lesson, module and clock values they supply are parameters.
 */
module Gamification {
  import opened Wrappers
  import opened Text
  import opened Stats

  // ------------------------------------------------------------------------------------------
  // Levels
  // ------------------------------------------------------------------------------------------

  /** The points needed for levels 1 to 10. */
  const LevelThresholds: seq<int> := [0, 100, 250, 500, 1000, 1750, 3000, 5000, 8000, 12000]

  const MaxLevel: nat := 10

  predicate Increasing(ts: seq<int>)
  {
    forall i, j :: 0 <= i < j < |ts| ==> ts[i] < ts[j]
  }

  /** How many thresholds a point total has reached. */
  function Reached(ts: seq<int>, points: int): (n: nat)
    ensures n <= |ts|
  {
    if ts == [] then 0 else (if ts[0] <= points then 1 else 0) + Reached(ts[1..], points)
  }

  /** The level a point total earns: the number of thresholds reached, and 1 below all of them. */
  function LevelFor(points: int): (l: nat)
    ensures 1 <= l <= MaxLevel
  {
    var n := Reached(LevelThresholds, points);
    if n == 0 then 1 else n
  }

  /** In increasing thresholds, the ones reached are exactly a prefix. */
  lemma {:induction false} ReachedPrefix(ts: seq<int>, k: nat, points: int)
    requires Increasing(ts) && k <= |ts|
    requires forall j :: 0 <= j < k ==> ts[j] <= points
    requires k == |ts| || points < ts[k]
    ensures Reached(ts, points) == k
  {
    if ts != [] {
      if k == 0 {
        if |ts| > 1 {
          assert ts[0] < ts[1];
        }
        ReachedPrefix(ts[1..], 0, points);
      } else {
        ReachedPrefix(ts[1..], k - 1, points);
      }
    }
  }

  lemma {:induction false} ReachedBounds(ts: seq<int>, points: int)
    requires Increasing(ts)
    ensures forall j :: 0 <= j < Reached(ts, points) ==> ts[j] <= points
    ensures Reached(ts, points) < |ts| ==> points < ts[Reached(ts, points)]
  {
    if ts != [] {
      if ts[0] <= points {
        ReachedBounds(ts[1..], points);
        forall j | 1 <= j < Reached(ts, points)
          ensures ts[j] <= points
        {
          assert ts[1..][j - 1] == ts[j];
        }
      } else {
        ReachedPrefix(ts, 0, points);
      }
    }
  }

  lemma {:induction false} ReachedMonotone(ts: seq<int>, p: int, q: int)
    requires p <= q
    ensures Reached(ts, p) <= Reached(ts, q)
  {
    if ts != [] {
      ReachedMonotone(ts[1..], p, q);
    }
  }

  /**
   * The loop over the thresholds: the level becomes i + 1 for each threshold i reached, and the
   * loop stops at the first one not reached.
   */
  method CalculateLevel(totalPoints: int) returns (level: nat)
    ensures level == LevelFor(totalPoints)
  {
    level := 1;
    var i := 0;
    while i < |LevelThresholds|
      invariant 0 <= i <= |LevelThresholds|
      invariant forall j :: 0 <= j < i ==> LevelThresholds[j] <= totalPoints
      invariant level == if i == 0 then 1 else i
    {
      if totalPoints >= LevelThresholds[i] {
        level := i + 1;
      } else {
        break;
      }
      i := i + 1;
    }
    ReachedPrefix(LevelThresholds, i, totalPoints);
  }

  /** A level's threshold has been reached, and the next level's has not. */
  lemma LevelBetweenThresholds(points: int)
    ensures points >= 0 ==> LevelThresholds[LevelFor(points) - 1] <= points
    ensures LevelFor(points) < MaxLevel ==> points < LevelThresholds[LevelFor(points)]
  {
    ReachedBounds(LevelThresholds, points);
  }

  /** More points never give a lower level. */
  lemma LevelMonotone(p: int, q: int)
    requires p <= q
    ensures LevelFor(p) <= LevelFor(q)
  {
    ReachedMonotone(LevelThresholds, p, q);
  }

  lemma ThresholdsIncreasing()
    ensures Increasing(LevelThresholds)
  {
  }

  /** Every user starts at level 1, which lasts until 100 points. */
  lemma FirstLevelBoundary()
    ensures LevelFor(-5) == 1 && LevelFor(99) == 1 && LevelFor(100) == 2
  {
    ThresholdsIncreasing();
    ReachedPrefix(LevelThresholds, 0, -5);
    ReachedPrefix(LevelThresholds, 1, 99);
    ReachedPrefix(LevelThresholds, 2, 100);
  }

  /** 12000 points reach the top level. */
  lemma TopLevelBoundary()
    ensures LevelFor(12000) == MaxLevel
  {
    ThresholdsIncreasing();
    ReachedPrefix(LevelThresholds, 10, 12000);
  }

  // ------------------------------------------------------------------------------------------
  // Users and points
  // ------------------------------------------------------------------------------------------

  class User {
    var learningPoints: int
    var farmingPoints: int
    var communityPoints: int
    var totalPoints: int
    var level: int

    /** Levels start at 1 and are only ever raised. */
    predicate Valid()
      reads this
    {
      level >= 1
    }

    /** A new user: no points, level 1. */
    constructor ()
      ensures Valid()
      ensures learningPoints == 0 && farmingPoints == 0 && communityPoints == 0
      ensures totalPoints == 0 && level == 1
    {
      learningPoints, farmingPoints, communityPoints := 0, 0, 0;
      totalPoints, level := 0, 1;
    }

    /**
     * Adds the points to the named category (learning, farming or community; any other category
     * adds nothing), recomputes the total from the three categories and raises the level when the
     * new total earns a higher one. Returns the new total, whether the level rose, and the level
     * the total earns.
     */
    method AwardPoints(points: int, category: string) returns (total: int, levelUp: bool, newLevel: nat)
      modifies this
      ensures learningPoints == old(learningPoints) + (if category == "learning" then points else 0)
      ensures farmingPoints == old(farmingPoints) + (if category == "farming" then points else 0)
      ensures communityPoints == old(communityPoints) + (if category == "community" then points else 0)
      ensures totalPoints == learningPoints + farmingPoints + communityPoints && total == totalPoints
      ensures newLevel == LevelFor(totalPoints)
      ensures levelUp <==> newLevel > old(level)
      ensures level == if levelUp then newLevel else old(level)
      ensures level >= old(level)
      ensures old(Valid()) ==> Valid()
    {
      if category == "learning" {
        learningPoints := learningPoints + points;
      } else if category == "farming" {
        farmingPoints := farmingPoints + points;
      } else if category == "community" {
        communityPoints := communityPoints + points;
      }
      totalPoints := learningPoints + farmingPoints + communityPoints;
      newLevel := CalculateLevel(totalPoints);
      levelUp := newLevel > level;
      if levelUp {
        level := newLevel;
      }
      total := totalPoints;
    }
  }

  // ------------------------------------------------------------------------------------------
  // Level progress
  // ------------------------------------------------------------------------------------------

  datatype LevelProgress = LevelProgress(
    level: int,
    points: int,
    pointsToNextLevel: int,
    progressPercentage: int,
    thresholds: Option<(int, int)>)

  lemma BandShare(earned: real, needed: real)
    requires needed > 0.0
    ensures 0.0 <= earned < needed ==> 0.0 <= earned / needed * 100.0 < 100.0
    ensures earned >= needed ==> earned / needed * 100.0 >= 100.0
  {
    DivideMonotone(earned, needed, needed);
    DivideMonotone(needed, earned, needed);
    DivideMonotone(0.0, earned, needed);
    assert needed / needed == 1.0;
  }

  /**
   * Progress towards the next level from a stored level and point total. At level 10 and above
   * there is nothing left to earn; below it, the points still missing and the share of the level's
   * band already earned, as a truncated percentage capped at 100.
   */
  function LevelProgressOf(level: int, points: int): (r: LevelProgress)
    requires level >= 1
    ensures r.level == level && r.points == points
    ensures level >= MaxLevel ==> r.pointsToNextLevel == 0 && r.progressPercentage == 100 && r.thresholds.None?
    ensures level < MaxLevel ==> (r.thresholds == Some((LevelThresholds[level - 1], LevelThresholds[level]))
      && r.pointsToNextLevel == LevelThresholds[level] - points && r.progressPercentage <= 100)
    ensures level < MaxLevel && LevelThresholds[level - 1] <= points < LevelThresholds[level] ==>
      0 <= r.progressPercentage < 100
    ensures level < MaxLevel && points >= LevelThresholds[level] ==> r.progressPercentage == 100
  {
    if level >= MaxLevel then LevelProgress(level, points, 0, 100, None)
    else
      var current := LevelThresholds[level - 1];
      var next := LevelThresholds[level];
      var needed := next - current;
      var earned := points - current;
      BandShare(earned as real, needed as real);
      var share := Truncate((earned as real) / (needed as real) * 100.0);
      LevelProgress(level, points, next - points, if share < 100 then share else 100, Some((current, next)))
  }

  /**
   * For a user whose level is the one their points earn, the progress is inside the band: some
   * points are still missing and the percentage is below 100.
   */
  lemma ProgressAtEarnedLevel(points: int)
    requires points >= 0 && LevelFor(points) < MaxLevel
    ensures LevelProgressOf(LevelFor(points), points).pointsToNextLevel > 0
    ensures 0 <= LevelProgressOf(LevelFor(points), points).progressPercentage < 100
  {
    LevelBetweenThresholds(points);
  }

  // ------------------------------------------------------------------------------------------
  // Learning progress
  // ------------------------------------------------------------------------------------------

  /** A stored id list whose every entry is the decimal text of an id. */
  predicate WellFormedList(s: string)
  {
    forall i :: 0 <= i < |Entries(s)| ==> IsIdText(Entries(s)[i])
  }

  lemma IdTextOfNat(n: nat)
    ensures IsIdText(NatToString(n))
  {
  }

  /** Appending an id to a well-formed list and reading the list back gives the old ids plus the new one. */
  lemma AppendId(s: string, id: nat)
    requires WellFormedList(s)
    ensures var t := Join(Entries(s) + [NatToString(id)], ',');
      Entries(t) == Entries(s) + [NatToString(id)] && WellFormedList(t)
  {
    IdTextOfNat(id);
    var ids := Entries(s) + [NatToString(id)];
    assert forall i :: 0 <= i < |ids| ==> IsIdText(ids[i]);
    EntriesJoin(ids);
  }

  function IdTexts(ids: seq<nat>): (ts: seq<string>)
    ensures |ts| == |ids| && forall i :: 0 <= i < |ids| ==> ts[i] == NatToString(ids[i])
  {
    seq(|ids|, i requires 0 <= i < |ids| => NatToString(ids[i]))
  }

  /** Every lesson completed, and every quiz too when the module has any. */
  predicate ModuleComplete(lessons: seq<string>, quizzes: seq<string>, moduleLessons: seq<nat>, moduleQuizzes: seq<nat>)
  {
    (forall i :: 0 <= i < |moduleLessons| ==> NatToString(moduleLessons[i]) in lessons)
    && (moduleQuizzes == [] || forall i :: 0 <= i < |moduleQuizzes| ==> NatToString(moduleQuizzes[i]) in quizzes)
  }

  datatype Lesson = Lesson(id: nat, pointsAwarded: int)

  /** One learner's record for one module. */
  class LearningProgress {
    var lessonsCompleted: string
    var quizzesCompleted: string
    var currentLessonId: nat
    var pointsEarned: int
    var completionDate: Option<int>

    predicate Valid()
      reads this
    {
      WellFormedList(lessonsCompleted) && WellFormedList(quizzesCompleted)
    }

    /** The record created when a learner first completes a lesson of the module. */
    constructor (lessonId: nat)
      ensures Valid()
      ensures lessonsCompleted == "" && quizzesCompleted == "" && currentLessonId == lessonId
      ensures pointsEarned == 0 && completionDate == None
    {
      lessonsCompleted, quizzesCompleted := "", "";
      currentLessonId, pointsEarned, completionDate := lessonId, 0, None;
    }

    /**
     * Records a completed lesson. An id already listed changes nothing and earns nothing.
     * Otherwise the id is appended to the list, the current lesson moves to the next one (when
     * there is one), the lesson's points are earned, and, when this completes the module for the
     * first time, the module bonus is added and the completion date set. The learner is then
     * awarded everything earned as learning points.
     */
    method CompleteLesson(user: User, lesson: Lesson, nextLessonId: Option<nat>,
                          moduleLessons: seq<nat>, moduleQuizzes: seq<nat>, bonus: int, now: int)
      returns (success: bool, earned: int)
      modifies this, user
      ensures success
      ensures NatToString(lesson.id) in old(Entries(lessonsCompleted)) ==>
        earned == 0 && unchanged(this) && unchanged(user)
      ensures NatToString(lesson.id) !in old(Entries(lessonsCompleted)) ==> (
        var listed := old(Entries(lessonsCompleted)) + [NatToString(lesson.id)];
        var firstCompletion := ModuleComplete(listed, Entries(quizzesCompleted), moduleLessons, moduleQuizzes)
          && old(completionDate).None?;
        && lessonsCompleted == Join(listed, ',')
        && quizzesCompleted == old(quizzesCompleted)
        && currentLessonId == (if nextLessonId.Some? then nextLessonId.value else old(currentLessonId))
        && earned == lesson.pointsAwarded + (if firstCompletion then bonus else 0)
        && pointsEarned == old(pointsEarned) + earned
        && completionDate == (if firstCompletion then Some(now) else old(completionDate))
        && user.learningPoints == old(user.learningPoints) + earned
        && user.farmingPoints == old(user.farmingPoints)
        && user.communityPoints == old(user.communityPoints)
        && user.totalPoints == user.learningPoints + user.farmingPoints + user.communityPoints
        && user.level == (if LevelFor(user.totalPoints) > old(user.level)
                          then LevelFor(user.totalPoints) else old(user.level)))
      ensures old(Valid()) ==> Valid()
      ensures old(Valid()) && NatToString(lesson.id) !in old(Entries(lessonsCompleted)) ==>
        Entries(lessonsCompleted) == old(Entries(lessonsCompleted)) + [NatToString(lesson.id)]
    {
      var completed := Entries(lessonsCompleted);
      if NatToString(lesson.id) in completed {
        return true, 0;
      }
      if Valid() {
        AppendId(lessonsCompleted, lesson.id);
      }
      completed := completed + [NatToString(lesson.id)];
      lessonsCompleted := Join(completed, ',');
      if nextLessonId.Some? {
        currentLessonId := nextLessonId.value;
      }
      earned := lesson.pointsAwarded;
      pointsEarned := pointsEarned + earned;
      var quizzes := Entries(quizzesCompleted);
      if ModuleComplete(completed, quizzes, moduleLessons, moduleQuizzes) && completionDate.None? {
        pointsEarned := pointsEarned + bonus;
        earned := earned + bonus;
        completionDate := Some(now);
      }
      var _, _, _ := user.AwardPoints(earned, "learning");
      success := true;
    }
  }

  // ------------------------------------------------------------------------------------------
  // Module completion percentage
  // ------------------------------------------------------------------------------------------

  /** The list without its first occurrence of x, as `list.remove(x)` after an `in` check. */
  function RemoveFirst(xs: seq<string>, x: string): (ys: seq<string>)
    ensures x in xs ==> |ys| == |xs| - 1
    ensures x !in xs ==> ys == xs
  {
    if xs == [] then []
    else if xs[0] == x then xs[1..]
    else [xs[0]] + RemoveFirst(xs[1..], x)
  }

  /** The entries of a stored list that count as completed items: only the first empty entry is dropped. */
  function CountedEntries(s: string): seq<string>
  {
    RemoveFirst(Entries(s), "")
  }

  /**
   * The share of a module's lessons and quizzes completed, as a truncated percentage: 0 without a
   * record or without items, 100 once the module has a completion date. The count is not capped,
   * so more listed entries than items gives more than 100.
   */
  function ModuleCompletionPercentage(p: LearningProgress?, totalLessons: nat, totalQuizzes: nat): (pct: nat)
    reads p
    ensures p == null ==> pct == 0
    ensures p != null && p.completionDate.Some? ==> pct == 100
    ensures p != null && p.completionDate.None? && totalLessons + totalQuizzes == 0 ==> pct == 0
    ensures p != null && p.completionDate.None? && totalLessons + totalQuizzes > 0 ==>
      pct * (totalLessons + totalQuizzes) <= 100 * (|CountedEntries(p.lessonsCompleted)| + |CountedEntries(p.quizzesCompleted)|)
        < (pct + 1) * (totalLessons + totalQuizzes)
    ensures p != null && p.completionDate.None? && totalLessons + totalQuizzes > 0 ==>
      (|CountedEntries(p.lessonsCompleted)| + |CountedEntries(p.quizzesCompleted)| <= totalLessons + totalQuizzes ==> pct <= 100)
  {
    if p == null then 0
    else if p.completionDate.Some? then 100
    else if totalLessons + totalQuizzes == 0 then 0
    else
      var done := |CountedEntries(p.lessonsCompleted)| + |CountedEntries(p.quizzesCompleted)|;
      PercentOrZero(done, totalLessons + totalQuizzes)
  }

  /** In a well-formed list no entry is empty, so every entry counts. */
  lemma WellFormedListCountsEveryEntry(s: string)
    requires WellFormedList(s)
    ensures |CountedEntries(s)| == |Entries(s)|
  {
  }

  /** A stray comma leaves two empty entries, and only one of them is dropped. */
  lemma OnlyFirstEmptyEntryDropped()
    ensures |CountedEntries(",")| == 1
  {
    assert Split(",", ',') == ["", ""] by {
      assert ","[1..] == "";
    }
  }
}

/**
 * The rules inside the sustainability pages: which uploaded photo names are accepted, how the
 * photos of a practice implementation are selected and named, and how completing a quest step
 * updates the quest. File-system writes, the upload folder on disk, the clock and the database
 * are not part of this model; the step counts and the timestamp text are parameters.
 */
module SustainabilityRoutes {
  import opened Wrappers
  import opened Text
  import opened Stats
  import opened Gamification

  // ------------------------------------------------------------------------------------------
  // Uploads
  // ------------------------------------------------------------------------------------------

  const AllowedExtensions: set<string> := {"png", "jpg", "jpeg", "gif"}

  /** The name has a '.', and the text after the last one, lower-cased, is an image extension. */
  predicate AllowedFile(filename: string)
  {
    '.' in filename && ToLower(AfterLast(filename, '.')) in AllowedExtensions
  }

  lemma ToLowerKeepsDots(s: string)
    requires '.' !in s
    ensures '.' !in ToLower(s)
  {
  }

  /**
   * A name with a dot is judged by its last extension alone, in any letter case: "a.PNG" is
   * accepted and "x.png.exe" is refused.
   */
  lemma AllowedFileByExtension(stem: string, extension: string)
    requires '.' !in extension
    ensures AllowedFile(stem + "." + extension) <==> ToLower(extension) in AllowedExtensions
  {
    AfterLastOfSuffix(stem, '.', extension);
  }

  /** The web path of the i-th upload once saved under the user's folder. */
  function PhotoPath(userId: nat, practiceId: nat, timestamp: string, i: nat, filename: string): (p: string)
    requires '.' in filename
  {
    "/uploads/practices/user_" + NatToString(userId) + "/practice_" + NatToString(practiceId)
      + "_" + timestamp + "_" + NatToString(i) + "." + ToLower(AfterLast(filename, '.'))
  }

  /** The saved name keeps the upload's extension, lower-cased. */
  lemma PhotoPathExtension(userId: nat, practiceId: nat, timestamp: string, i: nat, filename: string)
    requires '.' in filename
    ensures AfterLast(PhotoPath(userId, practiceId, timestamp, i, filename), '.') == ToLower(AfterLast(filename, '.'))
  {
    var extension := ToLower(AfterLast(filename, '.'));
    ToLowerKeepsDots(AfterLast(filename, '.'));
    var stem := "/uploads/practices/user_" + NatToString(userId) + "/practice_" + NatToString(practiceId)
      + "_" + timestamp + "_" + NatToString(i);
    assert PhotoPath(userId, practiceId, timestamp, i, filename) == stem + ['.'] + extension;
    AfterLastOfSuffix(stem, '.', extension);
  }

  /** The paths of the accepted photos among the first `count` uploads, by upload index. */
  function SavedPaths(photos: seq<string>, count: nat, userId: nat, practiceId: nat, timestamp: string): (paths: seq<string>)
    requires count <= |photos|
    ensures |paths| <= count
  {
    if count == 0 then []
    else
      var i := count - 1;
      SavedPaths(photos, i, userId, practiceId, timestamp)
        + (if AllowedFile(photos[i]) then [PhotoPath(userId, practiceId, timestamp, i, photos[i])] else [])
  }

  /**
   * The uploads of a practice implementation: at most the first three are considered; each one
   * with an accepted name is saved as `practice_<practice>_<timestamp>_<index>.<extension>`. None
   * when nothing is saved, which includes an empty upload list. An upload without a file has an
   * empty name here.
   */
  method HandleImplementationPhotos(photos: seq<string>, userId: nat, practiceId: nat, timestamp: string)
    returns (saved: Option<seq<string>>)
    ensures var considered := if |photos| < 3 then |photos| else 3;
      var paths := SavedPaths(photos, considered, userId, practiceId, timestamp);
      && (saved.None? <==> paths == [])
      && (saved.Some? ==> saved.value == paths)
  {
    if photos == [] {
      return None;
    }
    var files: seq<string> := [];
    var i := 0;
    while i < |photos|
      invariant 0 <= i <= |photos| && i <= 3
      invariant files == SavedPaths(photos, i, userId, practiceId, timestamp)
    {
      if i >= 3 {
        break;
      }
      assert photos[i] == "" ==> !AllowedFile(photos[i]);
      assert SavedPaths(photos, i + 1, userId, practiceId, timestamp) == files
        + (if AllowedFile(photos[i]) then [PhotoPath(userId, practiceId, timestamp, i, photos[i])] else []);
      if photos[i] != "" && AllowedFile(photos[i]) {
        files := files + [PhotoPath(userId, practiceId, timestamp, i, photos[i])];
      }
      i := i + 1;
    }
    saved := if files == [] then None else Some(files);
  }

  /** Uploads after the third never matter, and at most three photos are saved. */
  lemma OnlyFirstThreeUploadsCount(photos: seq<string>, more: seq<string>, userId: nat, practiceId: nat, timestamp: string)
    requires |photos| >= 3
    ensures SavedPaths(photos + more, 3, userId, practiceId, timestamp) == SavedPaths(photos, 3, userId, practiceId, timestamp)
    ensures |SavedPaths(photos, 3, userId, practiceId, timestamp)| <= 3
  {
    SavedPathsPrefix(photos, more, 3, userId, practiceId, timestamp);
  }

  lemma {:induction false} SavedPathsPrefix(photos: seq<string>, more: seq<string>, count: nat, userId: nat, practiceId: nat, timestamp: string)
    requires count <= |photos|
    ensures SavedPaths(photos + more, count, userId, practiceId, timestamp) == SavedPaths(photos, count, userId, practiceId, timestamp)
  {
    if count > 0 {
      SavedPathsPrefix(photos, more, count - 1, userId, practiceId, timestamp);
      assert (photos + more)[count - 1] == photos[count - 1];
    }
  }

  // ------------------------------------------------------------------------------------------
  // Quests
  // ------------------------------------------------------------------------------------------

  datatype QuestStatus = NotStarted | InProgress | QuestCompleted

  /** A learner's record of one quest. */
  class UserQuest {
    var status: QuestStatus
    var progressPercentage: nat
    var completionDate: Option<int>
    var pointsEarned: int
    var badgeEarned: bool

    constructor ()
      ensures status == InProgress && progressPercentage == 0 && completionDate == None
      ensures pointsEarned == 0 && !badgeEarned
    {
      status, progressPercentage, completionDate := InProgress, 0, None;
      pointsEarned, badgeEarned := 0, false;
    }

    /**
     * Completes a new step of a quest in progress: the progress becomes the truncated share of
     * the quest's steps now completed, and at exactly 100 the quest is completed, its points are
     * recorded and awarded under the "sustainability" category, and its badge is earned when the
     * quest has one. A quest not in progress, or a step already recorded, changes nothing.
     */
    method CompleteStep(user: User, stepAlreadyRecorded: bool, completedBefore: nat, totalSteps: nat,
                        questPoints: int, questHasBadge: bool, now: int)
      returns (progress: Option<nat>)
      modifies this, user
      ensures old(status) != InProgress || stepAlreadyRecorded ==>
        progress.None? && unchanged(this) && unchanged(user)
      ensures old(status) == InProgress && !stepAlreadyRecorded ==> (
        var pct := PercentOrZero(completedBefore + 1, totalSteps);
        && progress == Some(pct)
        && progressPercentage == pct
        && (status == QuestCompleted <==> pct == 100)
        && (pct == 100 ==> (completionDate == Some(now) && pointsEarned == questPoints
                            && badgeEarned == (questHasBadge || old(badgeEarned))
                            && user.totalPoints
                               == user.learningPoints + user.farmingPoints + user.communityPoints
                            && user.level == (if LevelFor(user.totalPoints) > old(user.level)
                                              then LevelFor(user.totalPoints) else old(user.level))))
        && (pct != 100 ==> (status == old(status) && completionDate == old(completionDate)
                            && pointsEarned == old(pointsEarned) && badgeEarned == old(badgeEarned)))
        && user.learningPoints == old(user.learningPoints)
        && user.farmingPoints == old(user.farmingPoints)
        && user.communityPoints == old(user.communityPoints)
        && (pct != 100 ==> unchanged(user)))
    {
      if status != InProgress || stepAlreadyRecorded {
        return None;
      }
      var pct := PercentOrZero(completedBefore + 1, totalSteps);
      progressPercentage := pct;
      if pct == 100 {
        status := QuestCompleted;
        completionDate := Some(now);
        pointsEarned := questPoints;
        var _, _, _ := user.AwardPoints(questPoints, "sustainability");
        if questHasBadge {
          badgeEarned := true;
        }
      }
      progress := Some(pct);
    }
  }

  /**
   * The progress as written when the count of completed steps already includes the step just
   * added (the session flushes the pending row before the count query), to which one is added
   * again.
   */
  function QuestProgressAsWritten(completedBefore: nat, totalSteps: nat): (p: nat)
    ensures totalSteps > 0 ==> p * totalSteps <= 100 * (completedBefore + 2)
  {
    PercentOrZero(completedBefore + 2, totalSteps)
  }

  /**
   * With the new step counted twice, a one-step quest never reaches exactly 100 (it reads 200),
   * and a two-step quest is completed by its first step.
   */
  lemma QuestCountedTwiceAsWritten()
    ensures QuestProgressAsWritten(0, 1) == 200
    ensures QuestProgressAsWritten(0, 2) == 100
  {
    assert PercentOrZero(2, 1) * 1 <= 200 < (PercentOrZero(2, 1) + 1) * 1;
  }

  /** Completing the last step completes the quest; with steps still open it stays in progress. */
  lemma QuestCompletesOnLastStep(completedBefore: nat, totalSteps: nat)
    requires totalSteps > 0
    ensures completedBefore + 1 == totalSteps ==> PercentOrZero(completedBefore + 1, totalSteps) == 100
    ensures completedBefore + 1 < totalSteps ==> PercentOrZero(completedBefore + 1, totalSteps) < 100
  {
    var done := completedBefore + 1;
    if done < totalSteps {
      var p := PercentOrZero(done, totalSteps);
      assert p * totalSteps <= 100 * done;
      assert 100 * done < 100 * totalSteps;
    }
  }
}

/**
 * The rules inside the learning pages: a module's content list (lessons, then quizzes, ordered by
 * their order index), the previous and next item around the lesson or quiz being viewed, the
 * module's completion percentage, and the prerequisite check. Database queries are not part of
 * this model: the rows they return are parameters.
 */
module LearningRoutes {
  import opened Wrappers
  import opened Stats
  import opened Ranking

  datatype ItemKind = LessonItem | QuizItem

  /** A row of the lesson or quiz table, as the content list needs it. */
  datatype Row = Row(id: nat, title: string, orderIndex: int)

  datatype ContentItem = ContentItem(id: nat, kind: ItemKind, title: string, orderIndex: int)

  function OrderOf(item: ContentItem): real
  {
    item.orderIndex as real
  }

  function Items(rows: seq<Row>, kind: ItemKind): (items: seq<ContentItem>)
    ensures |items| == |rows|
    ensures forall i :: 0 <= i < |rows| ==>
      items[i] == ContentItem(rows[i].id, kind, rows[i].title, rows[i].orderIndex)
  {
    seq(|rows|, i requires 0 <= i < |rows| => ContentItem(rows[i].id, kind, rows[i].title, rows[i].orderIndex))
  }

  /**
   * The module's content: every lesson, then every quiz, appended in that order, then sorted by
   * order index with Python's stable sort.
   */
  method ModuleContent(lessons: seq<Row>, quizzes: seq<Row>) returns (content: seq<ContentItem>)
    ensures content == SortByKey(Items(lessons, LessonItem) + Items(quizzes, QuizItem), OrderOf)
  {
    content := [];
    for i := 0 to |lessons|
      invariant content == Items(lessons[..i], LessonItem)
    {
      content := content + [ContentItem(lessons[i].id, LessonItem, lessons[i].title, lessons[i].orderIndex)];
    }
    assert lessons[..|lessons|] == lessons;
    ghost var lessonItems := content;
    for i := 0 to |quizzes|
      invariant content == lessonItems + Items(quizzes[..i], QuizItem)
    {
      content := content + [ContentItem(quizzes[i].id, QuizItem, quizzes[i].title, quizzes[i].orderIndex)];
    }
    assert quizzes[..|quizzes|] == quizzes;
    content := SortByKey(content, OrderOf);
  }

  /**
   * The content list is every lesson and quiz, ordered by order index, and on an equal index the
   * lessons come first, in their own order, followed by the quizzes.
   */
  lemma ModuleContentOrder(lessons: seq<Row>, quizzes: seq<Row>, k: int)
    ensures var all := Items(lessons, LessonItem) + Items(quizzes, QuizItem);
      var content := SortByKey(all, OrderOf);
      && multiset(content) == multiset(all)
      && SortedBy(content, OrderOf)
      && WithKey(content, OrderOf, k as real)
         == WithKey(Items(lessons, LessonItem), OrderOf, k as real) + WithKey(Items(quizzes, QuizItem), OrderOf, k as real)
  {
    var all := Items(lessons, LessonItem) + Items(quizzes, QuizItem);
    SortByKeyPermutes(all, OrderOf);
    SortByKeySorted(all, OrderOf);
    SortByKeyStable(all, OrderOf, k as real);
    WithKeyAppend(Items(lessons, LessonItem), Items(quizzes, QuizItem), OrderOf, k as real);
  }

  /** The position of the first item of this kind and id, as Python's `next(..., None)`. */
  function FirstIndex(content: seq<ContentItem>, kind: ItemKind, id: nat): (r: Option<nat>)
    ensures r.None? <==> forall i :: 0 <= i < |content| ==> !(content[i].kind == kind && content[i].id == id)
    ensures r.Some? ==> r.value < |content| && content[r.value].kind == kind && content[r.value].id == id
    ensures r.Some? ==> forall i :: 0 <= i < r.value ==> !(content[i].kind == kind && content[i].id == id)
  {
    if content == [] then None
    else if content[0].kind == kind && content[0].id == id then Some(0)
    else
      match FirstIndex(content[1..], kind, id)
      case None => None
      case Some(j) =>
        assert forall i :: 1 <= i <= j ==> content[i] == content[1..][i - 1];
        Some(j + 1)
  }

  datatype Neighbours = Neighbours(prev: Option<ContentItem>, next: Option<ContentItem>)

  /**
   * The items just before and just after the one being viewed; neither when it is not in the
   * list, no previous one for the first item and no next one for the last.
   */
  function NeighboursOf(content: seq<ContentItem>, kind: ItemKind, id: nat): (n: Neighbours)
    ensures FirstIndex(content, kind, id).None? ==> n.prev.None? && n.next.None?
    ensures FirstIndex(content, kind, id).Some? ==>
      var i := FirstIndex(content, kind, id).value;
      && (n.prev.Some? <==> i > 0)
      && (n.next.Some? <==> i < |content| - 1)
      && (n.prev.Some? ==> n.prev.value == content[i - 1])
      && (n.next.Some? ==> n.next.value == content[i + 1])
  {
    match FirstIndex(content, kind, id)
    case None => Neighbours(None, None)
    case Some(i) =>
      Neighbours(
        if i > 0 then Some(content[i - 1]) else None,
        if i < |content| - 1 then Some(content[i + 1]) else None)
  }

  /** Walking forward from an item and back again returns to it, when ids are unique per kind. */
  lemma NextThenPrevious(content: seq<ContentItem>, kind: ItemKind, id: nat)
    requires forall i, j :: 0 <= i < j < |content| ==> !(content[i].kind == content[j].kind && content[i].id == content[j].id)
    requires NeighboursOf(content, kind, id).next.Some?
    ensures var n := NeighboursOf(content, kind, id).next.value;
      NeighboursOf(content, n.kind, n.id).prev == Some(content[FirstIndex(content, kind, id).value])
  {
    var i := FirstIndex(content, kind, id).value;
    var n := content[i + 1];
    var j := FirstIndex(content, n.kind, n.id);
    assert j == Some(i + 1);
  }

  /** Nothing caps the module's completion percentage: more completed entries than items gives more than 100. */
  lemma CompletionIsUncapped()
    ensures PercentOrZero(3, 2) == 150
  {
  }

  /**
   * The prerequisite check: walks the prerequisite ids in order and stops at the first module the
   * learner has no progress record for, or whose record has no completion date. `progress` maps
   * each module id the learner has a record for to that record's completion date.
   */
  method PrerequisitesMet(prerequisiteIds: seq<nat>, progress: map<nat, Option<int>>) returns (met: bool)
    ensures met <==> forall i :: 0 <= i < |prerequisiteIds| ==>
      prerequisiteIds[i] in progress && progress[prerequisiteIds[i]].Some?
  {
    met := true;
    var i := 0;
    while i < |prerequisiteIds|
      invariant 0 <= i <= |prerequisiteIds|
      invariant met
      invariant forall j :: 0 <= j < i ==> prerequisiteIds[j] in progress && progress[prerequisiteIds[j]].Some?
    {
      var id := prerequisiteIds[i];
      if id !in progress || progress[id].None? {
        met := false;
        break;
      }
      i := i + 1;
    }
  }
}

/** The `bookmarks` namespace: saved interview questions kept in an in-memory
    table that the handlers append to, splice and mutate in place. */
module Bookmarks {
  import opened Common
  import opened Context
  import Tables

  /** A stored bookmark. `targetPosition` and `notes` are absent unless the
      caller supplied them; `lastPracticedAt` is `null` until first practised. */
  datatype Bookmark = Bookmark(
    id: int,
    userId: int,
    topic: string,
    question: string,
    difficulty: Difficulty,
    targetPosition: Option<string>,
    notes: Option<string>,
    category: string,
    practiceCount: int,
    lastPracticedAt: Option<Time>,
    createdAt: Time,
    updatedAt: Time)

  /** The validated input of `bookmarks.add`. */
  datatype AddInput = AddInput(
    topic: string,
    question: string,
    difficulty: Option<Difficulty>,
    targetPosition: Option<string>,
    notes: Option<string>)

  function HasId(id: int): Bookmark -> bool {
    (b: Bookmark) => b.id == id
  }

  function InCategory(category: string): Bookmark -> bool {
    (b: Bookmark) => b.category == category
  }

  function SameQuestion(topic: string, question: string): Bookmark -> bool {
    (b: Bookmark) => b.topic == topic && b.question == question
  }

  /** The record `bookmarks.add` appends to a table of `count` rows. */
  function NewBookmark(count: nat, user: Option<User>, input: AddInput, now: Time): (b: Bookmark)
    ensures b.id == count + 1 && b.userId == OwnerId(user)
    ensures b.topic == input.topic && b.question == input.question
    ensures b.targetPosition == input.targetPosition && b.notes == input.notes
    ensures input.difficulty.None? ==> b.difficulty == Medium
    ensures input.difficulty.Some? ==> b.difficulty == input.difficulty.value
    ensures b.category == "General" && b.practiceCount == 0 && b.lastPracticedAt.None?
    ensures b.createdAt == now && b.updatedAt == now
  {
    Bookmark(count + 1, OwnerId(user), input.topic, input.question,
             input.difficulty.GetOr(Medium), input.targetPosition, input.notes,
             "General", 0, None, now, now)
  }

  /** What `bookmarks.practice` does to the found record. */
  function Practiced(now: Time): (f: Bookmark -> Bookmark)
    ensures forall b :: f(b).practiceCount == b.practiceCount + 1 && f(b).lastPracticedAt == Some(now)
    ensures forall b :: f(b).(practiceCount := b.practiceCount, lastPracticedAt := b.lastPracticedAt) == b
  {
    (b: Bookmark) => b.(practiceCount := b.practiceCount + 1, lastPracticedAt := Some(now))
  }

  /** What `bookmarks.updateNotes` does to the found record. */
  function WithNotes(notes: string, now: Time): (f: Bookmark -> Bookmark)
    ensures forall b :: f(b).notes == Some(notes) && f(b).updatedAt == now
    ensures forall b :: f(b).(notes := b.notes, updatedAt := b.updatedAt) == b
  {
    (b: Bookmark) => b.(notes := Some(notes), updatedAt := now)
  }

  /** What `bookmarks.updateCategory` does to the found record. */
  function WithCategory(category: string, now: Time): (f: Bookmark -> Bookmark)
    ensures forall b :: f(b).category == category && f(b).updatedAt == now
    ensures forall b :: f(b).(category := b.category, updatedAt := b.updatedAt) == b
  {
    (b: Bookmark) => b.(category := category, updatedAt := now)
  }

  /** The in-memory bookmarks table. */
  class BookmarkStore {
    var rows: seq<Bookmark>

    /** The table starts with the mock data it is given. */
    constructor (initial: seq<Bookmark>)
      ensures rows == initial
    {
      rows := initial;
    }

    /** `bookmarks.add`: appends one record, numbered one past the current
        length, and returns it; earlier records are untouched. */
    method Add(user: Option<User>, input: AddInput, now: Time) returns (b: Bookmark)
      modifies this
      ensures b == NewBookmark(|old(rows)|, user, input, now)
      ensures rows == old(rows) + [b]
    {
      b := NewBookmark(|rows|, user, input, now);
      rows := rows + [b];
    }

    /** `bookmarks.remove`: deletes the first record with that id, if any;
        the answer is `{success: true}` whether or not one was found. */
    method Remove(id: int) returns (success: bool)
      modifies this
      ensures success
      ensures rows == Tables.RemoveFirst(old(rows), HasId(id))
    {
      var index := Tables.FindIndex(rows, HasId(id));
      if index.Some? {
        rows := rows[..index.value] + rows[index.value + 1..];
      }
      success := true;
    }

    /** `bookmarks.practice`: counts one more practice on the first record
        with that id and returns it, or returns `undefined` and changes nothing. */
    method Practice(id: int, now: Time) returns (r: Option<Bookmark>)
      modifies this
      ensures rows == Tables.UpdateFirst(old(rows), HasId(id), Practiced(now))
      ensures r == Tables.Find(rows, HasId(id))
    {
      rows, r := Tables.UpdateFound(rows, HasId(id), Practiced(now));
    }

    /** `bookmarks.updateNotes`: overwrites the notes of the first record with
        that id and returns it, or returns `undefined` and changes nothing. */
    method UpdateNotes(id: int, notes: string, now: Time) returns (r: Option<Bookmark>)
      modifies this
      ensures rows == Tables.UpdateFirst(old(rows), HasId(id), WithNotes(notes, now))
      ensures r == Tables.Find(rows, HasId(id))
    {
      rows, r := Tables.UpdateFound(rows, HasId(id), WithNotes(notes, now));
    }

    /** `bookmarks.updateCategory`: overwrites the category of the first record
        with that id and returns it, or returns `undefined` and changes nothing. */
    method UpdateCategory(id: int, category: string, now: Time) returns (r: Option<Bookmark>)
      modifies this
      ensures rows == Tables.UpdateFirst(old(rows), HasId(id), WithCategory(category, now))
      ensures r == Tables.Find(rows, HasId(id))
    {
      rows, r := Tables.UpdateFound(rows, HasId(id), WithCategory(category, now));
    }
  }

  /** `bookmarks.isBookmarked`: some record has both this topic and this question. */
  function IsBookmarked(rows: seq<Bookmark>, topic: string, question: string): (bookmarked: bool)
    ensures bookmarked <==> exists i :: 0 <= i < |rows| && rows[i].topic == topic && rows[i].question == question
  {
    Tables.Any(rows, SameQuestion(topic, question))
  }

  /** `bookmarks.listByCategory`: the records of that category, in table order. */
  function ListByCategory(rows: seq<Bookmark>, category: string): (r: seq<Bookmark>)
    ensures forall i :: 0 <= i < |r| ==> r[i] in rows && r[i].category == category
    ensures forall j :: 0 <= j < |rows| && rows[j].category == category ==> rows[j] in r
  {
    Tables.Filter(rows, InCategory(category))
  }

  /** `rows.map(b => b.category)`. */
  function CategoryColumn(rows: seq<Bookmark>): (col: seq<string>)
    ensures |col| == |rows| && forall i :: 0 <= i < |rows| ==> col[i] == rows[i].category
  {
    seq(|rows|, i requires 0 <= i < |rows| => rows[i].category)
  }

  /** `bookmarks.categories`: the categories in use, each once, in the order
      they first appear in the table (each wrapped as `{category}` in the
      answer). */
  function Categories(rows: seq<Bookmark>): (r: seq<string>)
    ensures forall c :: c in r <==> c in CategoryColumn(rows)
    ensures forall i, j :: 0 <= i < j < |r| ==> r[i] != r[j]
    ensures forall i, j :: 0 <= i < j < |r| ==>
      Tables.FirstIndexOf(CategoryColumn(rows), r[i]) < Tables.FirstIndexOf(CategoryColumn(rows), r[j])
  {
    var col := CategoryColumn(rows);
    Tables.DistinctSameElements(col);
    Tables.DistinctNoDuplicates(col);
    Tables.DistinctFirstAppearanceOrder(col);
    Tables.Distinct(col)
  }

  // ---------------------------------------------------------------------
  // Properties

  /** A question is reported as bookmarked right after it is added. */
  lemma AddThenIsBookmarked(rows: seq<Bookmark>, user: Option<User>, input: AddInput, now: Time)
    ensures IsBookmarked(rows + [NewBookmark(|rows|, user, input, now)], input.topic, input.question)
  {
    var after := rows + [NewBookmark(|rows|, user, input, now)];
    assert after[|rows|].topic == input.topic && after[|rows|].question == input.question;
  }

  /** While ids are still unused, `remove` of the id `add` just assigned
      undoes the `add`. */
  lemma RemoveUndoesAdd(rows: seq<Bookmark>, user: Option<User>, input: AddInput, now: Time)
    requires forall i :: 0 <= i < |rows| ==> rows[i].id != |rows| + 1
    ensures Tables.RemoveFirst(rows + [NewBookmark(|rows|, user, input, now)], HasId(|rows| + 1)) == rows
  {
    Tables.RemoveFirstAfterAppend(rows, NewBookmark(|rows|, user, input, now), HasId(|rows| + 1));
  }

  /** Ids are not unique. When the record removed is not the one holding the
      highest number `|rows|`, the next `add` numbers its record `|rows|` again.
      Until the older record is deleted, a lookup by that id reaches it, not
      the new one. */
  lemma AddAfterRemoveReusesId(rows: seq<Bookmark>, id: int, k: nat, m: nat,
                               user: Option<User>, input: AddInput, now: Time)
    requires Tables.IsFirstMatch(rows, HasId(id), k)
    requires m < |rows| && m != k && rows[m].id == |rows|
    ensures var removed := Tables.RemoveFirst(rows, HasId(id));
      var after := removed + [NewBookmark(|removed|, user, input, now)];
      after[|after| - 1].id == |rows| &&
      (exists i :: 0 <= i < |after| - 1 && after[i].id == |rows|) &&
      Tables.FindIndex(after, HasId(|rows|)).value < |after| - 1
  {
    var removed := Tables.RemoveFirst(rows, HasId(id));
    var after := removed + [NewBookmark(|removed|, user, input, now)];
    var i := if m < k then m else m - 1;
    assert removed[i] == rows[m];
    assert after[i].id == |rows|;
  }

  /** The sum of the practice counts of the table. */
  function TotalPractice(rows: seq<Bookmark>): int
    decreases |rows|
  {
    if |rows| == 0 then 0 else TotalPractice(rows[..|rows| - 1]) + rows[|rows| - 1].practiceCount
  }

  lemma {:induction false} TotalPracticeReplace(rows: seq<Bookmark>, k: nat, b: Bookmark)
    requires k < |rows|
    ensures TotalPractice(rows[k := b]) == TotalPractice(rows) - rows[k].practiceCount + b.practiceCount
    decreases |rows|
  {
    var n := |rows| - 1;
    if k < n {
      assert rows[k := b][..n] == rows[..n][k := b];
      TotalPracticeReplace(rows[..n], k, b);
    } else {
      assert rows[k := b][..n] == rows[..n];
    }
  }

  /** `practice` adds exactly one to the table's total practice count when
      some record has that id, and nothing otherwise. */
  lemma PracticeAddsOne(rows: seq<Bookmark>, id: int, now: Time)
    ensures TotalPractice(Tables.UpdateFirst(rows, HasId(id), Practiced(now))) ==
      TotalPractice(rows) + (if Tables.Any(rows, HasId(id)) then 1 else 0)
  {
    match Tables.FindIndex(rows, HasId(id))
    case None =>
    case Some(k) =>
      TotalPracticeReplace(rows, k, Practiced(now)(rows[k]));
  }

  /** `practice` changes only the practice count and last-practised time of the
      first record with that id: every other field and every other record stay. */
  lemma PracticeOnlyTouchesFirstMatch(rows: seq<Bookmark>, id: int, now: Time, k: nat)
    requires Tables.IsFirstMatch(rows, HasId(id), k)
    ensures var after := Tables.UpdateFirst(rows, HasId(id), Practiced(now));
      after[k].practiceCount == rows[k].practiceCount + 1 &&
      after[k].lastPracticedAt == Some(now) &&
      after[k].(practiceCount := rows[k].practiceCount, lastPracticedAt := rows[k].lastPracticedAt) == rows[k] &&
      forall j :: 0 <= j < |rows| && j != k ==> after[j] == rows[j]
  {
  }

  /** `listByCategory` lists in table order: a record added later is listed
      after every earlier record of its category. */
  lemma ListByCategoryAppend(rows: seq<Bookmark>, b: Bookmark, category: string)
    ensures ListByCategory(rows + [b], category) ==
      ListByCategory(rows, category) + (if b.category == category then [b] else [])
  {
    Tables.FilterAppend(rows, [b], InCategory(category));
  }

  /** `listByCategory` returns each record of the category as many times as it
      is stored, and no record of another category. */
  lemma ListByCategoryCount(rows: seq<Bookmark>, category: string, b: Bookmark)
    ensures multiset(ListByCategory(rows, category))[b] ==
      if b.category == category then multiset(rows)[b] else 0
  {
    Tables.FilterCount(rows, InCategory(category), b);
  }

  /** After an `add`, "General" is among the categories. */
  lemma AddListsGeneral(rows: seq<Bookmark>, user: Option<User>, input: AddInput, now: Time)
    ensures "General" in Categories(rows + [NewBookmark(|rows|, user, input, now)])
  {
    var after := rows + [NewBookmark(|rows|, user, input, now)];
    assert CategoryColumn(after)[|rows|] == "General";
  }
}

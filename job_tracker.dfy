/** The `jobTracker` namespace: the user's tracked applications in an
    in-memory table. */
module JobTracker {
  import opened Common
  import opened Context
  import Tables

  datatype TrackedJob = TrackedJob(
    id: int,
    userId: int,
    company: string,
    position: string,
    status: string,
    appliedDate: Time,
    notes: Option<string>,
    createdAt: Time,
    updatedAt: Time)

  /** The validated input of `jobTracker.create`. */
  datatype CreateInput = CreateInput(
    company: string,
    position: string,
    status: string,
    appliedDate: Time,
    notes: Option<string>)

  /** The optional fields of `jobTracker.update`; `None` is a key left out. */
  datatype Patch = Patch(status: Option<string>, notes: Option<string>)

  function HasId(id: int): TrackedJob -> bool {
    (t: TrackedJob) => t.id == id
  }

  /** The record `jobTracker.create` appends to a table of `count` rows. */
  function NewTrackedJob(count: nat, user: Option<User>, input: CreateInput, now: Time): (t: TrackedJob)
    ensures t.id == count + 1 && t.userId == OwnerId(user)
    ensures t.company == input.company && t.position == input.position && t.status == input.status
    ensures t.appliedDate == input.appliedDate && t.notes == input.notes
    ensures t.createdAt == now && t.updatedAt == now
  {
    TrackedJob(count + 1, OwnerId(user), input.company, input.position, input.status,
               input.appliedDate, input.notes, now, now)
  }

  /** `Object.assign(item, input, {updatedAt: now})` on an item whose id equals
      `input.id`: supplied fields overwrite, omitted ones stay. */
  function MergeTrackedJob(t: TrackedJob, patch: Patch, now: Time): (r: TrackedJob)
    ensures r.id == t.id && r.userId == t.userId && r.company == t.company && r.position == t.position
    ensures r.appliedDate == t.appliedDate && r.createdAt == t.createdAt
    ensures r.status == patch.status.GetOr(t.status)
    ensures patch.notes.Some? ==> r.notes == patch.notes
    ensures patch.notes.None? ==> r.notes == t.notes
    ensures r.updatedAt == now
  {
    t.(status := patch.status.GetOr(t.status),
       notes := if patch.notes.Some? then patch.notes else t.notes,
       updatedAt := now)
  }

  function Merged(patch: Patch, now: Time): TrackedJob -> TrackedJob {
    (t: TrackedJob) => MergeTrackedJob(t, patch, now)
  }

  /** The in-memory job tracker table. */
  class JobTrackerStore {
    var rows: seq<TrackedJob>

    constructor (initial: seq<TrackedJob>)
      ensures rows == initial
    {
      rows := initial;
    }

    /** `jobTracker.create`: appends one record and returns it. */
    method Create(user: Option<User>, input: CreateInput, now: Time) returns (t: TrackedJob)
      modifies this
      ensures t == NewTrackedJob(|old(rows)|, user, input, now)
      ensures rows == old(rows) + [t]
    {
      t := NewTrackedJob(|rows|, user, input, now);
      rows := rows + [t];
    }

    /** `jobTracker.update`: merges the patch into the first record with that
        id and returns it, or returns `undefined` and changes nothing. */
    method Update(id: int, patch: Patch, now: Time) returns (r: Option<TrackedJob>)
      modifies this
      ensures rows == Tables.UpdateFirst(old(rows), HasId(id), Merged(patch, now))
      ensures r == Tables.Find(rows, HasId(id))
      ensures r.None? <==> Tables.NoMatch(old(rows), HasId(id))
    {
      rows, r := Tables.UpdateFound(rows, HasId(id), Merged(patch, now));
    }

    /** `jobTracker.delete`: deletes the first record with that id, if any, and
        answers `{success: true}` either way. */
    method Delete(id: int) returns (success: bool)
      modifies this
      ensures success
      ensures rows == Tables.RemoveFirst(old(rows), HasId(id))
    {
      var index := Tables.FindIndex(rows, HasId(id));
      if index.Some? {
        rows := rows[..index.value] + rows[index.value + 1..];
      }
      success := true;
    }
  }

  // ---------------------------------------------------------------------
  // Properties

  /** Sending the same update twice leaves the table as one update at the
      later time would. */
  lemma UpdateTwiceIsUpdateOnce(rows: seq<TrackedJob>, id: int, patch: Patch, t1: Time, t2: Time)
    ensures Tables.UpdateFirst(Tables.UpdateFirst(rows, HasId(id), Merged(patch, t1)), HasId(id), Merged(patch, t2))
         == Tables.UpdateFirst(rows, HasId(id), Merged(patch, t2))
  {
    Tables.UpdateFirstTwice(rows, HasId(id), Merged(patch, t1), Merged(patch, t2));
    var composed := (t: TrackedJob) => Merged(patch, t2)(Merged(patch, t1)(t));
    match Tables.FindIndex(rows, HasId(id))
    case None =>
    case Some(k) =>
      assert composed(rows[k]) == Merged(patch, t2)(rows[k]);
  }

  /** Deleting removes exactly one record when the id is present, none otherwise. */
  lemma DeleteShrinksByOne(rows: seq<TrackedJob>, id: int)
    ensures |Tables.RemoveFirst(rows, HasId(id))| ==
      |rows| - (if exists i :: 0 <= i < |rows| && rows[i].id == id then 1 else 0)
  {
    match Tables.FindIndex(rows, HasId(id))
    case None =>
    case Some(k) => Tables.RemoveFirstMultiset(rows, HasId(id), k);
  }
}

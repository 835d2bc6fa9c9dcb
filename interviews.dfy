/** The `interviews` namespace: the interview history table. */
module Interviews {
  import opened Common
  import opened Context
  import Tables

  datatype Interview = Interview(
    id: int,
    userId: int,
    company: string,
    position: string,
    interviewDate: Time,
    status: string,
    notes: Option<string>,
    createdAt: Time,
    updatedAt: Time)

  /** The validated input of `interviews.create`. */
  datatype CreateInput = CreateInput(
    company: string,
    position: string,
    interviewDate: Time,
    status: string,
    notes: Option<string>)

  function HasId(id: int): Interview -> bool {
    (i: Interview) => i.id == id
  }

  /** The record `interviews.create` appends to a table of `count` rows. */
  function NewInterview(count: nat, user: Option<User>, input: CreateInput, now: Time): (r: Interview)
    ensures r.id == count + 1 && r.userId == OwnerId(user)
    ensures r.company == input.company && r.position == input.position
    ensures r.interviewDate == input.interviewDate && r.status == input.status && r.notes == input.notes
    ensures r.createdAt == now && r.updatedAt == now
  {
    Interview(count + 1, OwnerId(user), input.company, input.position, input.interviewDate,
              input.status, input.notes, now, now)
  }

  /** `interviews.getById`: the first record with that id, or `null`. */
  function GetById(rows: seq<Interview>, id: int): (r: Option<Interview>)
    ensures r.Some? ==> r.value.id == id && exists k :: Tables.IsFirstMatch(rows, HasId(id), k) && rows[k] == r.value
    ensures r.None? <==> forall i :: 0 <= i < |rows| ==> rows[i].id != id
  {
    Tables.Find(rows, HasId(id))
  }

  /** The in-memory interview history table. */
  class InterviewStore {
    var rows: seq<Interview>

    constructor (initial: seq<Interview>)
      ensures rows == initial
    {
      rows := initial;
    }

    /** `interviews.create`: appends one record numbered one past the current
        length and returns it. */
    method Create(user: Option<User>, input: CreateInput, now: Time) returns (r: Interview)
      modifies this
      ensures r == NewInterview(|old(rows)|, user, input, now)
      ensures rows == old(rows) + [r]
    {
      r := NewInterview(|rows|, user, input, now);
      rows := rows + [r];
    }

    /** `interviews.delete`: deletes the first record with that id, if any,
        and answers `{success: true}` either way. */
    method Delete(id: int) returns (success: bool)
      modifies this
      ensures success
      ensures rows == Tables.RemoveFirst(old(rows), HasId(id))
    {
      var index := Tables.FindIndex(rows, HasId(id));
      if index.Some? {
        rows := rows[..index.value] + rows[index.value + 1..];
      }
      success := true;
    }
  }

  // ---------------------------------------------------------------------
  // Properties

  /** Lookups by the id `create` just assigned reach the new record exactly
      when no older record already holds that id; otherwise they reach the
      older one. */
  lemma CreateThenGetById(rows: seq<Interview>, user: Option<User>, input: CreateInput, now: Time)
    ensures var created := NewInterview(|rows|, user, input, now);
      var at := Tables.FindIndex(rows + [created], HasId(|rows| + 1));
      at.Some? && (at.value == |rows| <==> forall i :: 0 <= i < |rows| ==> rows[i].id != |rows| + 1)
    ensures (forall i :: 0 <= i < |rows| ==> rows[i].id != |rows| + 1) ==>
      GetById(rows + [NewInterview(|rows|, user, input, now)], |rows| + 1) == Some(NewInterview(|rows|, user, input, now))
  {
    var created := NewInterview(|rows|, user, input, now);
    var after := rows + [created];
    assert HasId(|rows| + 1)(after[|rows|]);
    if !forall i :: 0 <= i < |rows| ==> rows[i].id != |rows| + 1 {
      var i :| 0 <= i < |rows| && rows[i].id == |rows| + 1;
      assert HasId(|rows| + 1)(after[i]);
    }
  }

  /** Deleting a record that is not there leaves the table unchanged. */
  lemma DeleteMissingIsNoop(rows: seq<Interview>, id: int)
    requires forall i :: 0 <= i < |rows| ==> rows[i].id != id
    ensures Tables.RemoveFirst(rows, HasId(id)) == rows
  {
  }

  /** While ids are unused, deleting the id `create` just assigned undoes it. */
  lemma DeleteUndoesCreate(rows: seq<Interview>, user: Option<User>, input: CreateInput, now: Time)
    requires forall i :: 0 <= i < |rows| ==> rows[i].id != |rows| + 1
    ensures Tables.RemoveFirst(rows + [NewInterview(|rows|, user, input, now)], HasId(|rows| + 1)) == rows
  {
    Tables.RemoveFirstAfterAppend(rows, NewInterview(|rows|, user, input, now), HasId(|rows| + 1));
  }
}

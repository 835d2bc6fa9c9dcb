/** The `preferences` namespace: one mutable preferences object that `save`
    merges its input into (`Object.assign`). */
module Preferences {
  import opened Common

  /** The stored preferences; a field is `None` while the object has no such key. */
  datatype Prefs = Prefs(
    employmentTypes: Option<seq<string>>,
    workMode: Option<string>,
    location: Option<string>,
    updatedAt: Option<Time>)

  /** The validated input of `preferences.save`; `None` is a key the caller left out. */
  datatype SaveInput = SaveInput(
    employmentTypes: Option<seq<string>>,
    workMode: Option<string>,
    location: Option<string>)

  /** `Object.assign(prefs, input, {updatedAt: now})`: supplied fields
      overwrite, omitted fields keep their value, `updatedAt` is stamped. */
  function Merge(p: Prefs, input: SaveInput, now: Time): (r: Prefs)
    ensures input.employmentTypes.Some? ==> r.employmentTypes == input.employmentTypes
    ensures input.employmentTypes.None? ==> r.employmentTypes == p.employmentTypes
    ensures input.workMode.Some? ==> r.workMode == input.workMode
    ensures input.workMode.None? ==> r.workMode == p.workMode
    ensures input.location.Some? ==> r.location == input.location
    ensures input.location.None? ==> r.location == p.location
    ensures r.updatedAt == Some(now)
  {
    Prefs(
      if input.employmentTypes.Some? then input.employmentTypes else p.employmentTypes,
      if input.workMode.Some? then input.workMode else p.workMode,
      if input.location.Some? then input.location else p.location,
      Some(now))
  }

  /** Two inputs saved one after the other, as one input: the later one's
      supplied fields win. */
  function Combine(first: SaveInput, second: SaveInput): SaveInput {
    SaveInput(
      if second.employmentTypes.Some? then second.employmentTypes else first.employmentTypes,
      if second.workMode.Some? then second.workMode else first.workMode,
      if second.location.Some? then second.location else first.location)
  }

  /** The process-wide preferences object. */
  class PreferenceStore {
    var prefs: Prefs

    constructor (initial: Prefs)
      ensures prefs == initial
    {
      prefs := initial;
    }

    /** `preferences.save`: merges the input into the stored object and
        returns the object. */
    method Save(input: SaveInput, now: Time) returns (r: Prefs)
      modifies this
      ensures prefs == Merge(old(prefs), input, now)
      ensures r == prefs
    {
      prefs := Merge(prefs, input, now);
      r := prefs;
    }
  }

  // ---------------------------------------------------------------------
  // Properties

  /** Saving the same input twice gives what saving it once gives, apart
      from `updatedAt`. */
  lemma SaveTwiceSameRecord(p: Prefs, input: SaveInput, t1: Time, t2: Time)
    ensures Merge(Merge(p, input, t1), input, t2) == Merge(p, input, t1).(updatedAt := Some(t2))
  {
  }

  /** Saves accumulate: two saves in a row are one save of the combined input,
      so a later save never discards a field only the earlier one supplied. */
  lemma SavesAccumulate(p: Prefs, first: SaveInput, second: SaveInput, t1: Time, t2: Time)
    ensures Merge(Merge(p, first, t1), second, t2) == Merge(p, Combine(first, second), t2)
  {
  }

  /** An empty input changes nothing but `updatedAt`. */
  lemma EmptySaveOnlyStamps(p: Prefs, now: Time)
    ensures Merge(p, SaveInput(None, None, None), now) == p.(updatedAt := Some(now))
  {
  }
}

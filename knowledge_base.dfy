/** The `knowledgeBase` namespace: named knowledge bases in an in-memory table,
    created on first request by name. */
module KnowledgeBase {
  import opened Common
  import opened Context
  import Tables

  datatype KnowledgeBase = KnowledgeBase(
    id: int,
    userId: int,
    name: string,
    description: string,
    content: string,
    createdAt: Time,
    updatedAt: Time)

  function HasId(id: int): KnowledgeBase -> bool {
    (kb: KnowledgeBase) => kb.id == id
  }

  function Named(name: string): KnowledgeBase -> bool {
    (kb: KnowledgeBase) => kb.name == name
  }

  /** The record `getOrCreate` appends to a table of `count` rows; an omitted
      (or empty) description becomes "", the content starts empty. */
  function NewKnowledgeBase(count: nat, user: Option<User>, name: string,
                            description: Option<string>, now: Time): (kb: KnowledgeBase)
    ensures kb.id == count + 1 && kb.userId == OwnerId(user) && kb.name == name
    ensures kb.description == description.GetOr("") && kb.content == ""
    ensures kb.createdAt == now && kb.updatedAt == now
  {
    KnowledgeBase(count + 1, OwnerId(user), name, description.GetOr(""), "", now, now)
  }

  /** `knowledgeBase.getOrCreate` on a table: the new table and the answer. */
  function GetOrCreateIn(rows: seq<KnowledgeBase>, user: Option<User>, name: string,
                       description: Option<string>, now: Time): (r: (seq<KnowledgeBase>, KnowledgeBase))
    ensures r.1.name == name
    ensures Tables.Any(rows, Named(name)) ==> r.0 == rows && Tables.Find(rows, Named(name)) == Some(r.1)
    ensures !Tables.Any(rows, Named(name)) ==>
      r.0 == rows + [r.1] && r.1 == NewKnowledgeBase(|rows|, user, name, description, now)
  {
    match Tables.Find(rows, Named(name))
    case Some(kb) => (rows, kb)
    case None =>
      var kb := NewKnowledgeBase(|rows|, user, name, description, now);
      (rows + [kb], kb)
  }

  /** `knowledgeBase.getById`: the first knowledge base with that id, or `null`. */
  function GetById(rows: seq<KnowledgeBase>, id: int): (r: Option<KnowledgeBase>)
    ensures r.Some? ==> r.value.id == id && exists k :: Tables.IsFirstMatch(rows, HasId(id), k) && rows[k] == r.value
    ensures r.None? <==> forall i :: 0 <= i < |rows| ==> rows[i].id != id
  {
    Tables.Find(rows, HasId(id))
  }

  /** The in-memory knowledge base table. */
  class KnowledgeBaseStore {
    var rows: seq<KnowledgeBase>

    constructor (initial: seq<KnowledgeBase>)
      ensures rows == initial
    {
      rows := initial;
    }

    /** `knowledgeBase.getOrCreate`: the first knowledge base with that name;
        when there is none, a new one is appended and returned. */
    method GetOrCreate(user: Option<User>, name: string, description: Option<string>, now: Time)
      returns (kb: KnowledgeBase)
      modifies this
      ensures (rows, kb) == GetOrCreateIn(old(rows), user, name, description, now)
    {
      var found := Tables.Find(rows, Named(name));
      if found.Some? {
        kb := found.value;
      } else {
        kb := NewKnowledgeBase(|rows|, user, name, description, now);
        rows := rows + [kb];
      }
    }
  }

  // ---------------------------------------------------------------------
  // Properties

  /** Asking for a name that is present answers the first record of that name
      and leaves the table as it was. */
  lemma GetOrCreateExisting(rows: seq<KnowledgeBase>, user: Option<User>, name: string,
                            description: Option<string>, now: Time, k: nat)
    requires Tables.IsFirstMatch(rows, Named(name), k)
    ensures GetOrCreateIn(rows, user, name, description, now) == (rows, rows[k])
  {
    Tables.FirstMatchUnique(rows, Named(name), k, Tables.FindIndex(rows, Named(name)).value);
  }

  /** Asking twice for the same name: the second call changes nothing and
      answers what the first answered. */
  lemma GetOrCreateIdempotent(rows: seq<KnowledgeBase>, user: Option<User>, name: string,
                              d1: Option<string>, d2: Option<string>, t1: Time, t2: Time)
    ensures var (once, kb) := GetOrCreateIn(rows, user, name, d1, t1);
      GetOrCreateIn(once, user, name, d2, t2) == (once, kb)
  {
    var (once, kb) := GetOrCreateIn(rows, user, name, d1, t1);
    if !Tables.Any(rows, Named(name)) {
      assert Tables.IsFirstMatch(once, Named(name), |rows|);
      GetOrCreateExisting(once, user, name, d2, t2, |rows|);
    }
  }

  /** `getOrCreate` never adds more than one record, and adds one exactly when
      the name was new. */
  lemma GetOrCreateGrowth(rows: seq<KnowledgeBase>, user: Option<User>, name: string,
                          description: Option<string>, now: Time)
    ensures |GetOrCreateIn(rows, user, name, description, now).0| ==
      |rows| + (if exists i :: 0 <= i < |rows| && rows[i].name == name then 0 else 1)
  {
  }
}

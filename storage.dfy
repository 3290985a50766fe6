/**
 * The NPC library: a list of records kept in the browser's local storage
 * under one key, most recent first, at most MaxNpcs entries, looked up by
 * `id`. The stored text is modelled by what it decodes to.
 */
module Storage {
  import opened Common
  import opened NpcRecord

  const MaxNpcs: nat := 100

  const FullError: string :=
    "Library is full. Maximum " + Decimal(MaxNpcs) + " NPCs allowed. Please delete some NPCs to save new ones."

  const WriteError: string := "Failed to save NPC to storage."

  /**
   * What local storage holds under the library key: nothing (or an empty
   * string), text that does not parse, or a parsed list of records.
   */
  datatype Stored = Absent | Unreadable | Saved(npcs: seq<Npc>)

  /** The `{ success, error }` object that `save` returns. */
  datatype SaveResult = SaveResult(success: bool, error: Option<string>)

  predicate HasId(npcs: seq<Npc>, id: string) {
    exists i :: 0 <= i < |npcs| && npcs[i].id == id
  }

  /** No two entries share an id. */
  predicate UniqueIds(npcs: seq<Npc>) {
    forall i, j :: 0 <= i < j < |npcs| ==> npcs[i].id != npcs[j].id
  }

  /** `findIndex(n => n.id === id)`: the first position holding `id`, or -1. */
  function IndexOfId(npcs: seq<Npc>, id: string): (k: int)
    ensures -1 <= k < |npcs|
    ensures k == -1 <==> !HasId(npcs, id)
    ensures k >= 0 ==> npcs[k].id == id
    ensures k >= 0 ==> forall i :: 0 <= i < k ==> npcs[i].id != id
  {
    var ids := seq(|npcs|, i requires 0 <= i < |npcs| => npcs[i].id);
    assert forall i :: 0 <= i < |npcs| ==> ids[i] == npcs[i].id;
    IndexOf(ids, id)
  }

  /**
   * The list `save` writes back: the entry with the record's id replaced in
   * place, or the record put in front when its id is new.
   */
  function Upsert(npcs: seq<Npc>, npc: Npc): (r: seq<Npc>)
    ensures HasId(npcs, npc.id) ==>
      |r| == |npcs| && r[IndexOfId(npcs, npc.id)] == npc &&
      forall i :: 0 <= i < |npcs| && i != IndexOfId(npcs, npc.id) ==> r[i] == npcs[i]
    ensures !HasId(npcs, npc.id) ==> |r| == |npcs| + 1 && r[0] == npc && r[1..] == npcs
  {
    var k := IndexOfId(npcs, npc.id);
    if k >= 0 then npcs[k := npc] else [npc] + npcs
  }

  /** `filter(npc => npc.id !== id)`. */
  function Without(npcs: seq<Npc>, id: string): (r: seq<Npc>)
    ensures |r| <= |npcs|
    ensures forall i :: 0 <= i < |r| ==> r[i].id != id && r[i] in npcs
    ensures forall i :: 0 <= i < |npcs| && npcs[i].id != id ==> npcs[i] in r
    ensures |r| == |npcs| <==> !HasId(npcs, id)
    decreases |npcs|
  {
    if |npcs| == 0 then []
    else if npcs[0].id == id then Without(npcs[1..], id)
    else [npcs[0]] + Without(npcs[1..], id)
  }

  /** After an upsert the record is what a lookup of its id finds first. */
  lemma UpsertFinds(npcs: seq<Npc>, npc: Npc)
    ensures IndexOfId(Upsert(npcs, npc), npc.id) >= 0
    ensures Upsert(npcs, npc)[IndexOfId(Upsert(npcs, npc), npc.id)] == npc
  {
  }

  /** An upsert never creates a duplicate id. */
  lemma UpsertKeepsUnique(npcs: seq<Npc>, npc: Npc)
    requires UniqueIds(npcs)
    ensures UniqueIds(Upsert(npcs, npc))
  {
  }

  /** Filtering keeps the relative order: it distributes over concatenation. */
  lemma {:induction false} WithoutAppend(a: seq<Npc>, b: seq<Npc>, id: string)
    ensures Without(a + b, id) == Without(a, id) + Without(b, id)
    decreases |a|
  {
    if |a| > 0 {
      assert (a + b)[1..] == a[1..] + b;
      WithoutAppend(a[1..], b, id);
    } else {
      assert a + b == b;
    }
  }

  /** Filtering a list without duplicates leaves it without duplicates. */
  lemma {:induction false} WithoutKeepsUnique(npcs: seq<Npc>, id: string)
    requires UniqueIds(npcs)
    ensures UniqueIds(Without(npcs, id))
    decreases |npcs|
  {
    if |npcs| > 0 {
      WithoutKeepsUnique(npcs[1..], id);
      if npcs[0].id != id {
        var rest := Without(npcs[1..], id);
        var r := [npcs[0]] + rest;
        forall j | 0 < j < |r| ensures r[0].id != r[j].id {
          assert rest[j - 1] in npcs[1..];
        }
      }
    }
  }

  /** With unique ids, removing a present id drops exactly one entry. */
  lemma {:induction false} WithoutUniqueDropsOne(npcs: seq<Npc>, id: string)
    requires UniqueIds(npcs) && HasId(npcs, id)
    ensures |Without(npcs, id)| == |npcs| - 1
    decreases |npcs|
  {
    if npcs[0].id == id {
      assert !HasId(npcs[1..], id) by {
        forall i | 0 <= i < |npcs| - 1 ensures npcs[1..][i].id != id {
          assert npcs[1..][i] == npcs[i + 1];
        }
      }
    } else {
      var i :| 0 <= i < |npcs| && npcs[i].id == id;
      assert npcs[1..][i - 1].id == id;
      WithoutUniqueDropsOne(npcs[1..], id);
    }
  }

  class Library {
    /** The value under the library key. */
    var stored: Stored
    /** Whether writing to or clearing local storage throws (quota, private mode). */
    const writesFail: bool

    /** The library's invariant: within capacity and keyed by id. */
    ghost predicate Valid()
      reads this
    {
      |GetAll()| <= MaxNpcs && UniqueIds(GetAll())
    }

    constructor (initial: Stored, writesFail: bool)
      ensures stored == initial && this.writesFail == writesFail
    {
      stored := initial;
      this.writesFail := writesFail;
    }

    /** The stored list; [] when nothing is stored or it does not parse. */
    function GetAll(): (r: seq<Npc>)
      reads this
      ensures stored.Saved? ==> r == stored.npcs
      ensures !stored.Saved? ==> r == []
    {
      if stored.Saved? then stored.npcs else []
    }

    /** The first stored record with `id`, or null. */
    function GetById(id: string): (r: Option<Npc>)
      reads this
      ensures r.Some? <==> HasId(GetAll(), id)
      ensures r.Some? ==> r.value.id == id
      ensures r.Some? ==>
        exists k :: 0 <= k < |GetAll()| && GetAll()[k] == r.value && forall i :: 0 <= i < k ==> GetAll()[i].id != id
    {
      var k := IndexOfId(GetAll(), id);
      if k >= 0 then Some(GetAll()[k]) else None
    }

    function Exists(id: string): (b: bool)
      reads this
      ensures b <==> HasId(GetAll(), id)
    {
      GetById(id) != None
    }

    function Count(): (n: nat)
      reads this
      ensures n == |GetAll()|
      ensures stored.Saved? ==> n == |stored.npcs|
      ensures !stored.Saved? ==> n == 0
    {
      |GetAll()|
    }

    function IsFull(): (b: bool)
      reads this
      ensures b <==> Count() >= MaxNpcs
    {
      Count() >= MaxNpcs
    }

    static function GetMaxCapacity(): (n: nat)
      ensures n == 100
    {
      MaxNpcs
    }

    /** Writes the whole list back; false, with nothing written, when storage throws. */
    method SaveAll(npcs: seq<Npc>) returns (ok: bool)
      modifies this`stored
      ensures ok == !writesFail
      ensures stored == if ok then Saved(npcs) else old(stored)
    {
      if writesFail {
        ok := false;
      } else {
        stored := Saved(npcs);
        ok := true;
      }
    }

    /** Adds a record, or updates the one with its id; refused when full. */
    method Save(npc: Npc) returns (r: SaveResult)
      modifies this`stored
      ensures old(Count()) >= MaxNpcs ==>
        r == SaveResult(false, Some(FullError)) && stored == old(stored)
      ensures old(Count()) < MaxNpcs && writesFail ==>
        r == SaveResult(false, Some(WriteError)) && stored == old(stored)
      ensures old(Count()) < MaxNpcs && !writesFail ==>
        r == SaveResult(true, None) && GetAll() == Upsert(old(GetAll()), npc)
      ensures r.success ==> GetById(npc.id) == Some(npc) && Exists(npc.id)
      ensures old(Valid()) ==> Valid()
    {
      var npcs := GetAll();
      if |npcs| >= MaxNpcs {
        return SaveResult(false, Some(FullError));
      }
      var existingIndex := IndexOfId(npcs, npc.id);
      if existingIndex != -1 {
        npcs := npcs[existingIndex := npc];
      } else {
        npcs := [npc] + npcs;
      }
      var success := SaveAll(npcs);
      r := SaveResult(success, if success then None else Some(WriteError));
      UpsertFinds(old(GetAll()), npc);
      if old(Valid()) && success {
        UpsertKeepsUnique(old(GetAll()), npc);
      }
    }

    /** Deletes every record with `id`; false when there is none or storage throws. */
    method Remove(id: string) returns (ok: bool)
      modifies this`stored
      ensures !old(Exists(id)) ==> !ok && stored == old(stored)
      ensures old(Exists(id)) ==> ok == !writesFail
      ensures ok ==> GetAll() == Without(old(GetAll()), id) && !Exists(id)
      ensures !ok ==> stored == old(stored)
      ensures old(Valid()) ==> Valid()
    {
      var npcs := GetAll();
      var filteredNpcs := Without(npcs, id);
      if |filteredNpcs| == |npcs| {
        return false;
      }
      ok := SaveAll(filteredNpcs);
      if old(Valid()) && ok {
        WithoutKeepsUnique(npcs, id);
      }
    }

    /** Removes the library key; false, with nothing removed, when storage throws. */
    method ClearAll() returns (ok: bool)
      modifies this`stored
      ensures ok == !writesFail
      ensures stored == if ok then Absent else old(stored)
      ensures ok ==> GetAll() == [] && Valid()
    {
      if writesFail {
        ok := false;
      } else {
        stored := Absent;
        ok := true;
      }
    }
  }
}

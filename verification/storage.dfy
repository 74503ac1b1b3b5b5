/**
 * The storm key/value store, as the bot's modules use it: one namespace holds records of
 * one type keyed by an integer ID that the store assigns by auto-increment when a record
 * is saved with ID 0. A namespace lists its records in ascending ID order. Whether a read
 * or a write succeeds is decided by two oracle fields, since the real store is a file.
 */
module Storage {
  import opened Wrappers

  /** A stored record together with its ID (the struct's `ID` field). */
  datatype Entry<R> = Entry(id: int, rec: R)

  ghost predicate Ascending<R>(s: seq<Entry<R>>) {
    forall i, j :: 0 <= i < j < |s| ==> s[i].id < s[j].id
  }


  /** Position of the first entry with the given ID, or `|s|` when there is none. */
  function IndexOf<R>(s: seq<Entry<R>>, id: int): (k: nat)
    ensures k <= |s|
    ensures k < |s| ==> s[k].id == id
    ensures forall j :: 0 <= j < k ==> s[j].id != id
  {
    if s == [] then 0
    else if s[0].id == id then 0
    else 1 + IndexOf(s[1..], id)
  }

  /** Point lookup by ID (storm's `One("ID", id, &out)`). */
  function Find<R>(s: seq<Entry<R>>, id: int): Option<R> {
    var k := IndexOf(s, id);
    if k < |s| then Some(s[k].rec) else None
  }

  /** Insert-or-replace by ID, keeping the listing in ascending ID order. */
  function Upsert<R>(s: seq<Entry<R>>, id: int, rec: R): (r: seq<Entry<R>>)
    ensures |r| >= 1
  {
    if s == [] then [Entry(id, rec)]
    else if id < s[0].id then [Entry(id, rec)] + s
    else if id == s[0].id then [Entry(id, rec)] + s[1..]
    else [s[0]] + Upsert(s[1..], id, rec)
  }

  /** Removal by ID. */
  function Remove<R>(s: seq<Entry<R>>, id: int): (r: seq<Entry<R>>)
    ensures |r| <= |s|
  {
    if s == [] then []
    else if s[0].id == id then Remove(s[1..], id)
    else [s[0]] + Remove(s[1..], id)
  }

  /** Every ID in the listing is above `lo`. */
  ghost predicate AllAbove<R>(s: seq<Entry<R>>, lo: int) {
    forall i :: 0 <= i < |s| ==> s[i].id > lo
  }

  /** No entry of the listing has ID `x`. */
  ghost predicate Avoids<R>(s: seq<Entry<R>>, x: int) {
    forall i :: 0 <= i < |s| ==> s[i].id != x
  }

  lemma {:induction false} UpsertBounds<R>(s: seq<Entry<R>>, id: int, rec: R, lo: int, x: int)
    ensures AllAbove(s, lo) && id > lo ==> AllAbove(Upsert(s, id, rec), lo)
    ensures Avoids(s, x) && id != x ==> Avoids(Upsert(s, id, rec), x)
    decreases |s|
  {
    if s != [] && id > s[0].id {
      UpsertBounds(s[1..], id, rec, lo, x);
    }
  }

  /** Saving keeps the listing sorted by ID. */
  lemma {:induction false} UpsertAscending<R>(s: seq<Entry<R>>, id: int, rec: R)
    requires Ascending(s)
    ensures Ascending(Upsert(s, id, rec))
    decreases |s|
  {
    if s != [] && id > s[0].id {
      UpsertAscending(s[1..], id, rec);
      UpsertBounds(s[1..], id, rec, s[0].id, 0);
      var t := Upsert(s[1..], id, rec);
      assert AllAbove(t, s[0].id);
      assert Upsert(s, id, rec) == [s[0]] + t;
    }
  }

  /** After a save, looking the saved ID up gives the saved record. */
  lemma {:induction false} FindSaved<R>(s: seq<Entry<R>>, id: int, rec: R)
    ensures Find(Upsert(s, id, rec), id) == Some(rec)
    decreases |s|
  {
    if s != [] && id > s[0].id {
      FindSaved(s[1..], id, rec);
      assert Upsert(s, id, rec)[1..] == Upsert(s[1..], id, rec);
    }
  }

  /** A save leaves every other ID's record as it was. */
  lemma {:induction false} FindOther<R>(s: seq<Entry<R>>, id: int, rec: R, other: int)
    requires Ascending(s)
    requires other != id
    ensures Find(Upsert(s, id, rec), other) == Find(s, other)
    decreases |s|
  {
    var r := Upsert(s, id, rec);
    if s == [] {
    } else if id < s[0].id {
      assert r[1..] == s;
    } else if id == s[0].id {
      assert r[1..] == s[1..];
      if other != s[0].id {
        assert IndexOf(s, other) == 1 + IndexOf(s[1..], other);
      }
    } else {
      assert r[1..] == Upsert(s[1..], id, rec);
      FindOther(s[1..], id, rec, other);
    }
  }

  /** Saving under an ID that is already stored replaces that record in place. */
  lemma {:induction false} UpsertExisting<R>(s: seq<Entry<R>>, i: nat, rec: R)
    requires Ascending(s)
    requires i < |s|
    ensures Upsert(s, s[i].id, rec) == s[i := Entry(s[i].id, rec)]
    decreases i
  {
    if i > 0 {
      assert s[0].id < s[i].id;
      assert s[1..][i - 1] == s[i];
      UpsertExisting(s[1..], i - 1, rec);
      assert s[i := Entry(s[i].id, rec)] == [s[0]] + s[1..][i - 1 := Entry(s[i].id, rec)];
    }
  }

  /** Saving under an ID above every stored one appends at the end of the listing. */
  lemma {:induction false} UpsertFresh<R>(s: seq<Entry<R>>, id: int, rec: R)
    requires forall i :: 0 <= i < |s| ==> s[i].id < id
    ensures Upsert(s, id, rec) == s + [Entry(id, rec)]
    decreases |s|
  {
    if s != [] {
      UpsertFresh(s[1..], id, rec);
      assert s == [s[0]] + s[1..];
    }
  }

  lemma {:induction false} RemoveBounds<R>(s: seq<Entry<R>>, id: int, lo: int, x: int)
    ensures AllAbove(s, lo) ==> AllAbove(Remove(s, id), lo)
    ensures Avoids(s, x) ==> Avoids(Remove(s, id), x)
    ensures Avoids(Remove(s, id), id)
    decreases |s|
  {
    if s != [] {
      RemoveBounds(s[1..], id, lo, x);
    }
  }

  /** Deleting keeps the listing sorted by ID. */
  lemma {:induction false} RemoveAscending<R>(s: seq<Entry<R>>, id: int)
    requires Ascending(s)
    ensures Ascending(Remove(s, id))
    decreases |s|
  {
    if s != [] {
      RemoveAscending(s[1..], id);
      RemoveBounds(s[1..], id, s[0].id, 0);
    }
  }

  /** After a delete the ID is gone and every other ID's record is as it was. */
  lemma {:induction false} FindAfterRemove<R>(s: seq<Entry<R>>, id: int, other: int)
    ensures Find(Remove(s, id), id) == None
    ensures other != id ==> Find(Remove(s, id), other) == Find(s, other)
    decreases |s|
  {
    RemoveBounds(s, id, 0, 0);
    if s != [] {
      FindAfterRemove(s[1..], id, other);
      if s[0].id != id && other != id && other != s[0].id {
        assert Remove(s, id)[1..] == Remove(s[1..], id);
      }
    }
  }

  /**
   * One storm namespace. `entries` is the namespace's content in ID order, `next` the
   * auto-increment counter, which saves under an explicit ID do not move; `readable` and `writable` say whether reads and writes of this
   * namespace currently succeed.
   */
  class Store<R> {
    var entries: seq<Entry<R>>
    var next: int
    var readable: bool
    var writable: bool

    ghost predicate Valid()
      reads this
    {
      Ascending(entries) && next >= 1 && Avoids(entries, 0)
    }

    constructor (readable: bool, writable: bool)
      ensures Valid()
      ensures entries == [] && next == 1
      ensures this.readable == readable && this.writable == writable
    {
      entries := [];
      next := 1;
      this.readable := readable;
      this.writable := writable;
    }

    /**
     * `Save(&rec)`: a record with ID 0 gets the next auto-increment ID, any other ID is
     * written under that ID. Returns whether it succeeded and the record's ID.
     */
    method Save(id: int, rec: R) returns (ok: bool, key: int)
      requires Valid()
      modifies this
      ensures Valid()
      ensures readable == old(readable) && writable == old(writable)
      ensures ok == writable
      ensures ok ==> key == (if id == 0 then old(next) else id) && key != 0
      ensures ok ==> entries == Upsert(old(entries), key, rec)
      ensures ok ==> next == (if id == 0 then old(next) + 1 else old(next))
      ensures !ok ==> entries == old(entries) && next == old(next)
    {
      if !writable {
        return false, 0;
      }
      key := if id == 0 then next else id;
      UpsertAscending(entries, key, rec);
      UpsertBounds(entries, key, rec, 0, 0);
      entries := Upsert(entries, key, rec);
      if id == 0 {
        next := next + 1;
      }
      ok := true;
    }

    /** `One("ID", id, &out)`: None when the read fails or no record has that ID. */
    method One(id: int) returns (r: Option<R>)
      ensures readable ==> r == Find(entries, id)
      ensures !readable ==> r == None
    {
      r := if readable then Find(entries, id) else None;
    }

    /** `All(&out)`: every record in ID order, or None when the read fails. */
    method All() returns (r: Option<seq<Entry<R>>>)
      ensures readable ==> r == Some(entries)
      ensures !readable ==> r == None
    {
      r := if readable then Some(entries) else None;
    }

    /** `DeleteStruct(&rec)`: fails when the write fails or no record has that ID. */
    method Delete(id: int) returns (ok: bool)
      requires Valid()
      modifies this
      ensures Valid()
      ensures readable == old(readable) && writable == old(writable) && next == old(next)
      ensures ok == (writable && Find(old(entries), id).Some?)
      ensures ok ==> entries == Remove(old(entries), id)
      ensures !ok ==> entries == old(entries)
    {
      if !writable || Find(entries, id).None? {
        return false;
      }
      RemoveAscending(entries, id);
      RemoveBounds(entries, id, 0, 0);
      entries := Remove(entries, id);
      ok := true;
    }
  }
}

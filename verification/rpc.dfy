/**
 * The JSON-RPC methods the giveaway, simple command, marathon and alert services share:
 * `Get` looks a record up, `Update` saves a record for an admin caller and reports the
 * record's ID, and `New` is `Update` of a record whose ID is zeroed first, so the store
 * assigns a fresh one.
 */
module Rpc {
  import opened Wrappers
  import opened Storage
  import opened Bot

  const AccessDenied := "access denied"

  /**
   * `Update(r, rec, reply)` on a record whose ID field is `id`. A caller that is not an
   * admin is refused and the reply is left as it was (`reply0`); a failed save sets it to
   * -1; a successful one to the record's ID, the fresh one when `id` is 0.
   */
  method Update<R>(store: Store<R>, cfg: Config, r: Option<Request>, id: int, rec: R, reply0: int)
    returns (err: Outcome, reply: int)
    requires store.Valid()
    modifies store
    ensures store.Valid()
    ensures store.readable == old(store.readable) && store.writable == old(store.writable)
    ensures !IsAdminRequest(cfg, r) ==>
      err == Err(AccessDenied) && reply == reply0
      && store.entries == old(store.entries) && store.next == old(store.next)
    ensures IsAdminRequest(cfg, r) && !store.writable ==>
      err == Err(StoreError) && reply == -1
      && store.entries == old(store.entries) && store.next == old(store.next)
    ensures IsAdminRequest(cfg, r) && store.writable ==>
      err == Ok && reply == (if id == 0 then old(store.next) else id) && reply != 0
      && store.entries == Upsert(old(store.entries), reply, rec)
      && store.next == (if id == 0 then old(store.next) + 1 else old(store.next))
  {
    if !IsAdminRequest(cfg, r) {
      return Err(AccessDenied), reply0;
    }
    var ok, key := store.Save(id, rec);
    if !ok {
      return Err(StoreError), -1;
    }
    return Ok, key;
  }

  /** `New(r, rec, reply)`: the record's ID is zeroed, then it is saved as by `Update`. */
  method New<R>(store: Store<R>, cfg: Config, r: Option<Request>, rec: R, reply0: int)
    returns (err: Outcome, reply: int)
    requires store.Valid()
    modifies store
    ensures store.Valid()
    ensures store.readable == old(store.readable) && store.writable == old(store.writable)
    ensures !IsAdminRequest(cfg, r) ==>
      err == Err(AccessDenied) && reply == reply0
      && store.entries == old(store.entries) && store.next == old(store.next)
    ensures IsAdminRequest(cfg, r) && !store.writable ==>
      err == Err(StoreError) && reply == -1
      && store.entries == old(store.entries) && store.next == old(store.next)
    ensures IsAdminRequest(cfg, r) && store.writable ==>
      err == Ok && reply == old(store.next)
      && store.entries == Upsert(old(store.entries), reply, rec)
      && store.next == old(store.next) + 1
  {
    err, reply := Update(store, cfg, r, 0, rec, reply0);
  }

  /** `Get(r, id, out)`: a read-only lookup of the record with that ID, for any caller. */
  method Get<R>(store: Store<R>, id: int) returns (err: Outcome, rec: Option<R>)
    ensures err.Ok? <==> store.readable && Find(store.entries, id).Some?
    ensures err.Ok? ==> rec == Find(store.entries, id)
    ensures err.Err? ==> err == Err(StoreError)
  {
    rec := store.One(id);
    err := if rec.Some? then Ok else Err(StoreError);
  }
}

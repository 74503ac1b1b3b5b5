/**
 * The alert module: stored messages, each with a period and the time it is next due. Once
 * a minute the worker ticks: every alert due strictly before the tick time is said on the
 * bot's channel and rescheduled one period after the tick time.
 */
module Alerts {
  import opened Wrappers
  import opened Twitch
  import opened Storage

  /** `Alert`, without its ID (the store key); times and periods are nanosecond counts. */
  datatype Alert = Alert(period: int, nextAlert: int, message: string)

  /** An alert fires at tick time `t` when it is due strictly before `t`. */
  predicate Due(a: Alert, t: int) {
    a.nextAlert < t
  }

  /** The alert after firing at `t`: next due one period after `t`. */
  function Rescheduled(a: Alert, t: int): (r: Alert)
    ensures r.period == a.period && r.message == a.message
  {
    a.(nextAlert := t + a.period)
  }

  /** An entry after the tick at `t`: rescheduled if it was due, untouched otherwise. */
  function Ticked(e: Entry<Alert>, t: int): (r: Entry<Alert>)
    ensures r.id == e.id
  {
    if Due(e.rec, t) then Entry(e.id, Rescheduled(e.rec, t)) else e
  }

  /** The messages a tick at `t` says, in listing order. */
  function Fired(es: seq<Entry<Alert>>, t: int): seq<string>
    decreases |es|
  {
    if es == [] then []
    else
      var last := es[|es| - 1];
      Fired(es[..|es| - 1], t) + (if Due(last.rec, t) then [last.rec.message] else [])
  }

  /** The listing after a tick at `t`. */
  function TickEntries(es: seq<Entry<Alert>>, t: int): (r: seq<Entry<Alert>>)
    ensures |r| == |es|
  {
    seq(|es|, i requires 0 <= i < |es| => Ticked(es[i], t))
  }

  /**
   * `tick(t)`: lists the alerts; says and reschedules every due one, in listing order. A
   * failed listing says and saves nothing; a failed save is ignored.
   */
  method Tick(store: Store<Alert>, irc: Irc, channel: string, t: int)
    requires store.Valid()
    modifies store, irc
    ensures store.Valid() && store.readable == old(store.readable) && store.writable == old(store.writable)
    ensures !store.readable ==> store.entries == old(store.entries) && irc.said == old(irc.said)
    ensures store.readable ==> irc.said == old(irc.said) + Lines(channel, Fired(old(store.entries), t))
    ensures store.readable && store.writable ==> store.entries == TickEntries(old(store.entries), t)
    ensures !store.writable ==> store.entries == old(store.entries)
    ensures store.next == old(store.next)
  {
    var listed := store.All();
    if listed.None? {
      return;
    }
    FireAll(store, irc, channel, listed.value, t);
  }

  /** The tick's loop over a listing `alerts` that is the store's content. */
  method FireAll(store: Store<Alert>, irc: Irc, channel: string, alerts: seq<Entry<Alert>>, t: int)
    requires store.Valid() && store.entries == alerts
    modifies store, irc
    ensures store.Valid() && store.readable == old(store.readable) && store.writable == old(store.writable)
    ensures store.next == old(store.next)
    ensures store.entries == if store.writable then TickEntries(alerts, t) else alerts
    ensures irc.said == old(irc.said) + Lines(channel, Fired(alerts, t))
  {
    PartialEnds(alerts, t);
    for i := 0 to |alerts|
      invariant store.Valid() && store.readable == old(store.readable) && store.writable == old(store.writable)
      invariant store.next == old(store.next)
      invariant store.entries == if store.writable then Partial(alerts, i, t) else alerts
      invariant irc.said == old(irc.said) + Lines(channel, Fired(alerts[..i], t))
    {
      ghost var said := irc.said;
      Fire(store, irc, channel, alerts, i, t);
      ghost var now := if Due(alerts[i].rec, t) then [alerts[i].rec.message] else [];
      ghost var before := Lines(channel, Fired(alerts[..i], t));
      FiredPrefix(alerts, i, t);
      LinesAppend(channel, Fired(alerts[..i], t), now);
      assert before + Lines(channel, now) == Lines(channel, Fired(alerts[..i + 1], t));
      assert irc.said == old(irc.said) + (before + Lines(channel, now));
    }
    assert alerts[..|alerts|] == alerts;
  }

  /**
   * One step of the tick's loop over the listing: the `i`-th alert, if due, is said and
   * saved rescheduled; a failed save leaves the store as it was.
   */
  method Fire(store: Store<Alert>, irc: Irc, channel: string, alerts: seq<Entry<Alert>>, i: nat, t: int)
    requires store.Valid() && i < |alerts|
    requires store.entries == if store.writable then Partial(alerts, i, t) else alerts
    modifies store, irc
    ensures store.Valid() && store.readable == old(store.readable) && store.writable == old(store.writable)
    ensures store.next == old(store.next)
    ensures store.entries == if store.writable then Partial(alerts, i + 1, t) else alerts
    ensures irc.said == old(irc.said) + Lines(channel, if Due(alerts[i].rec, t) then [alerts[i].rec.message] else [])
  {
    var alert := alerts[i];
    PartialStep(alerts, i, t);
    if Due(alert.rec, t) {
      irc.Say(channel, alert.rec.message);
      assert Lines(channel, [alert.rec.message]) == [Line(channel, alert.rec.message)];
      assert store.entries[i].id == alert.id;
      UpsertExisting(store.entries, i, Rescheduled(alert.rec, t));
      var _, _ := store.Save(alert.id, Rescheduled(alert.rec, t));
    } else {
      assert Lines(channel, []) == [];
    }
  }

  /** The messages said for one more entry of the listing. */
  lemma FiredPrefix(es: seq<Entry<Alert>>, i: nat, t: int)
    requires i < |es|
    ensures Fired(es[..i + 1], t) ==
      Fired(es[..i], t) + if Due(es[i].rec, t) then [es[i].rec.message] else []
  {
    assert es[..i + 1][..i] == es[..i];
  }

  /** The listing part-way through a tick: the first `i` entries ticked, the rest as listed. */
  function Partial(es: seq<Entry<Alert>>, i: nat, t: int): (r: seq<Entry<Alert>>)
    ensures |r| == |es|
  {
    seq(|es|, j requires 0 <= j < |es| => if j < i then Ticked(es[j], t) else es[j])
  }

  lemma PartialEnds(es: seq<Entry<Alert>>, t: int)
    ensures Partial(es, 0, t) == es
    ensures Partial(es, |es|, t) == TickEntries(es, t)
  {
  }

  lemma PartialStep(es: seq<Entry<Alert>>, i: nat, t: int)
    requires i < |es|
    ensures Partial(es, i, t)[i] == es[i]
    ensures Due(es[i].rec, t) ==>
      Partial(es, i + 1, t) == Partial(es, i, t)[i := Entry(es[i].id, Rescheduled(es[i].rec, t))]
    ensures !Due(es[i].rec, t) ==> Partial(es, i + 1, t) == Partial(es, i, t)
  {
  }

  /**
   * With periods that are not negative, a tick moves no alert's time backwards, leaves no
   * alert due before the tick time, and so a second tick at the same time says nothing and
   * changes nothing.
   */
  lemma TickSettles(es: seq<Entry<Alert>>, t: int)
    requires forall i :: 0 <= i < |es| ==> es[i].rec.period >= 0
    ensures forall i :: 0 <= i < |es| ==> TickEntries(es, t)[i].rec.nextAlert >= es[i].rec.nextAlert
    ensures forall i :: 0 <= i < |es| ==> !Due(TickEntries(es, t)[i].rec, t)
    ensures Fired(TickEntries(es, t), t) == []
    ensures TickEntries(TickEntries(es, t), t) == TickEntries(es, t)
  {
    NoneDueFiresNothing(TickEntries(es, t), t);
  }

  lemma {:induction false} NoneDueFiresNothing(es: seq<Entry<Alert>>, t: int)
    requires forall i :: 0 <= i < |es| ==> !Due(es[i].rec, t)
    ensures Fired(es, t) == []
    decreases |es|
  {
    if es != [] {
      NoneDueFiresNothing(es[..|es| - 1], t);
    }
  }

  /** A negative period leaves the alert due, so it fires again on the next tick at the same time. */
  lemma NegativePeriodRefires(id: int, a: Alert, t: int)
    requires Due(a, t) && a.period < 0
    ensures Fired(TickEntries([Entry(id, a)], t), t) == [a.message]
  {
    var es := TickEntries([Entry(id, a)], t);
    assert es == [Entry(id, Rescheduled(a, t))];
    assert es[..0] == [];
  }
}

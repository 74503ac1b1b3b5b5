/**
 * The giveaway module: "!giveaway" alone lists the stored giveaways by tag; "!giveaway
 * <tag>" registers the caller, who must follow the channel, for the first giveaway with
 * that tag, at most once. The older revision of the handler takes an untyped context and
 * refuses anything that is not a command context.
 */
module Giveaways {
  import opened Wrappers
  import opened Twitch
  import opened Commands
  import opened Storage
  import opened Bot

  /** `Giveaway`, without its ID (the store key). */
  datatype Giveaway = Giveaway(tag: string, desc: string, participants: seq<string>)

  const DescHeader := "To register for one of the giveaways type !giveaway <tag>.  The list of tags are:"
  const DescFooter := "More information at: https://roll.konkers.net/"
  const FollowersOnly := "Giveaway only open to followers.  Please follow and try again :)"

  function TagLine(g: Giveaway): string {
    "  " + g.tag + " - " + g.desc
  }

  function NoSuchGiveaway(tag: string): string {
    "There's no " + tag + " giveaway.  Type !giveaway for a list"
  }

  function AlreadyRegistered(displayName: string): string {
    displayName + ", you're already registered."
  }

  function Registered(username: string, desc: string): string {
    username + ", you're now registered for the " + desc + " giveaway."
  }

  /** One tag line per giveaway, in listing order. */
  function TagLines(gs: seq<Entry<Giveaway>>): (r: seq<string>)
    ensures |r| == |gs|
    ensures forall i :: 0 <= i < |gs| ==> r[i] == TagLine(gs[i].rec)
  {
    seq(|gs|, i requires 0 <= i < |gs| => TagLine(gs[i].rec))
  }

  /** Everything the description says: the header, a line per giveaway, and the footer. */
  function DescLines(gs: seq<Entry<Giveaway>>): (r: seq<string>)
    ensures |r| == |gs| + 2
    ensures r[0] == DescHeader && r[|r| - 1] == DescFooter
    ensures forall i :: 0 <= i < |gs| ==> r[i + 1] == TagLine(gs[i].rec)
  {
    [DescHeader] + TagLines(gs) + [DescFooter]
  }

  /** Position of the first giveaway with the tag, or `|gs|` when there is none. */
  function TagIndex(gs: seq<Entry<Giveaway>>, tag: string): (k: nat)
    ensures k <= |gs|
    ensures k < |gs| ==> gs[k].rec.tag == tag
    ensures forall j :: 0 <= j < k ==> gs[j].rec.tag != tag
  {
    if gs == [] then 0
    else if gs[0].rec.tag == tag then 0
    else 1 + TagIndex(gs[1..], tag)
  }

  /** The giveaway with `username` appended to its participants. */
  function Joined(g: Giveaway, username: string): (r: Giveaway)
    ensures r.tag == g.tag && r.desc == g.desc
    ensures r.participants == g.participants + [username]
  {
    g.(participants := g.participants + [username])
  }

  /** `giveawayDesc`: lists every giveaway; a failed read is returned and nothing is said. */
  method GiveawayDesc(store: Store<Giveaway>, irc: Irc, cc: CommandContext) returns (err: Outcome)
    modifies irc
    ensures !store.readable ==> err == Err(StoreError) && irc.said == old(irc.said)
    ensures store.readable ==> err == Ok && irc.said == old(irc.said) + Lines(cc.channel, DescLines(store.entries))
  {
    var listed := store.All();
    if listed.None? {
      return Err(StoreError);
    }
    var gs := listed.value;
    irc.Say(cc.channel, DescHeader);
    for i := 0 to |gs|
      invariant irc.said == old(irc.said) + Lines(cc.channel, [DescHeader] + TagLines(gs[..i]))
    {
      ghost var head := [DescHeader] + TagLines(gs[..i]);
      assert TagLines(gs[..i + 1]) == TagLines(gs[..i]) + [TagLine(gs[i].rec)];
      assert head + [TagLine(gs[i].rec)] == [DescHeader] + TagLines(gs[..i + 1]);
      LinesAppend(cc.channel, head, [TagLine(gs[i].rec)]);
      assert Lines(cc.channel, [TagLine(gs[i].rec)]) == [Line(cc.channel, TagLine(gs[i].rec))];
      irc.Say(cc.channel, TagLine(gs[i].rec));
      assert irc.said == old(irc.said) + (Lines(cc.channel, head) + Lines(cc.channel, [TagLine(gs[i].rec)]));
    }
    assert gs[..|gs|] == gs;
    LinesAppend(cc.channel, [DescHeader] + TagLines(gs), [DescFooter]);
    irc.Say(cc.channel, DescFooter);
    err := Ok;
  }

  /** The follower check: whether the user's ID is among the channel's followers. */
  method IsFollower(follows: seq<int>, userId: int) returns (found: bool)
    ensures found <==> userId in follows
  {
    found := false;
    var i := 0;
    while i < |follows|
      invariant 0 <= i <= |follows|
      invariant userId !in follows[..i]
    {
      if follows[i] == userId {
        return true;
      }
      i := i + 1;
    }
    assert follows[..i] == follows;
  }

  /** The tag search: the first giveaway with the tag, or `|gs|` when there is none. */
  method FindGiveaway(gs: seq<Entry<Giveaway>>, tag: string) returns (k: nat)
    ensures k == TagIndex(gs, tag)
  {
    k := 0;
    while k < |gs|
      invariant k <= |gs|
      invariant forall j :: 0 <= j < k ==> gs[j].rec.tag != tag
      invariant TagIndex(gs, tag) >= k
    {
      if gs[k].rec.tag == tag {
        return;
      }
      k := k + 1;
    }
  }

  /** The participant check: whether `username` is already registered. */
  method IsRegistered(participants: seq<string>, username: string) returns (found: bool)
    ensures found <==> username in participants
  {
    found := false;
    for i := 0 to |participants|
      invariant username !in participants[..i]
    {
      if participants[i] == username {
        return true;
      }
    }
    assert participants[..|participants|] == participants;
  }

  /**
   * The effect of `giveawayCommand(cc, [tag, ...])` once the caller is known to follow the
   * channel: a failed read returns the error; an unknown tag or a caller already registered
   * gets its answer; otherwise the caller is appended to the first giveaway with the tag
   * and confirmed, unless the save fails, which returns the error and says nothing.
   */
  twostate predicate RegisterDone(store: Store<Giveaway>, irc: Irc, cc: CommandContext, tag: string, err: Outcome)
    reads store, irc
  {
    var gs := old(store.entries);
    var k := TagIndex(gs, tag);
    store.Valid() && store.readable == old(store.readable) && store.writable == old(store.writable)
    && store.next == old(store.next)
    && if !store.readable then
      err == Err(StoreError) && store.entries == gs && irc.said == old(irc.said)
    else if k == |gs| then
      err == Ok && store.entries == gs && irc.said == old(irc.said) + [Line(cc.channel, NoSuchGiveaway(tag))]
    else if cc.user.username in gs[k].rec.participants then
      err == Ok && store.entries == gs
      && irc.said == old(irc.said) + [Line(cc.channel, AlreadyRegistered(cc.user.displayName))]
    else if !store.writable then
      err == Err(StoreError) && store.entries == gs && irc.said == old(irc.said)
    else
      err == Ok && store.entries == gs[k := Entry(gs[k].id, Joined(gs[k].rec, cc.user.username))]
      && irc.said == old(irc.said) + [Line(cc.channel, Registered(cc.user.username, gs[k].rec.desc))]
  }

  method Register(store: Store<Giveaway>, irc: Irc, cc: CommandContext, tag: string) returns (err: Outcome)
    requires store.Valid()
    modifies store, irc
    ensures RegisterDone(store, irc, cc, tag, err)
  {
    var listed := store.All();
    if listed.None? {
      return Err(StoreError);
    }
    var gs := listed.value;
    var k := FindGiveaway(gs, tag);
    if k == |gs| {
      irc.Say(cc.channel, NoSuchGiveaway(tag));
      return Ok;
    }
    var g := gs[k].rec;
    var already := IsRegistered(g.participants, cc.user.username);
    if already {
      irc.Say(cc.channel, AlreadyRegistered(cc.user.displayName));
      return Ok;
    }
    UpsertExisting(gs, k, Joined(g, cc.user.username));
    var ok, _ := store.Save(gs[k].id, Joined(g, cc.user.username));
    if !ok {
      return Err(StoreError);
    }
    irc.Say(cc.channel, Registered(cc.user.username, g.desc));
    err := Ok;
  }

  /**
   * The effect of `giveawayCommand(cc, args)`: without arguments, the description (a failed
   * read is returned and nothing is said); otherwise a failed follower request is returned
   * with nothing said, a caller who does not follow is told so and nothing is saved, and a
   * follower is registered for the giveaway tagged with the first argument.
   */
  twostate predicate GiveawayDone(store: Store<Giveaway>, irc: Irc, api: Api, cc: CommandContext,
                                  args: seq<string>, err: Outcome)
    reads store, irc, api
  {
    store.Valid() && store.next == old(store.next)
    && store.readable == old(store.readable) && store.writable == old(store.writable)
    && (args == [] ==>
      store.entries == old(store.entries)
      && (!store.readable ==> err == Err(StoreError) && irc.said == old(irc.said))
      && (store.readable ==> err == Ok && irc.said == old(irc.said) + Lines(cc.channel, DescLines(store.entries))))
    && (args != [] && api.follows.None? ==>
      err == Err(ApiError) && store.entries == old(store.entries) && irc.said == old(irc.said))
    && (args != [] && api.follows.Some? && cc.user.userId !in api.follows.value ==>
      err == Ok && store.entries == old(store.entries)
      && irc.said == old(irc.said) + [Line(cc.channel, FollowersOnly)])
    && (args != [] && api.follows.Some? && cc.user.userId in api.follows.value ==>
      RegisterDone(store, irc, cc, args[0], err))
  }

  /** `giveawayCommand`. */
  method GiveawayCommand(store: Store<Giveaway>, irc: Irc, api: Api, cc: CommandContext, args: seq<string>)
    returns (err: Outcome)
    requires store.Valid()
    modifies store, irc
    ensures GiveawayDone(store, irc, api, cc, args, err)
  {
    if args == [] {
      err := GiveawayDesc(store, irc, cc);
      return;
    }
    var follows := api.GetChannelFollows(cc.channel);
    if follows.None? {
      return Err(ApiError);
    }
    var follower := IsFollower(follows.value, cc.user.userId);
    if !follower {
      irc.Say(cc.channel, FollowersOnly);
      return Ok;
    }
    err := Register(store, irc, cc, args[0]);
  }

  /**
   * The older `giveawayCommand`: refuses a context that is not a command context, changing
   * nothing; a command context gets every branch of the newer handler.
   */
  method LegacyGiveawayCommand(store: Store<Giveaway>, irc: Irc, api: Api, ctx: Ctx, args: seq<string>)
    returns (err: Outcome)
    requires store.Valid()
    modifies store, irc
    ensures ctx.Foreign? ==>
      err == Err(NotCommandContext) && store.Valid()
      && store.entries == old(store.entries) && store.next == old(store.next) && irc.said == old(irc.said)
    ensures ctx.Chat? ==> GiveawayDone(store, irc, api, ctx.cc, args, err)
  {
    if ctx.Foreign? {
      return Err(NotCommandContext);
    }
    err := GiveawayCommand(store, irc, api, ctx.cc, args);
  }

  /** `NewGiveawayModule`: registers "giveaway" at level 0; a name already taken stays as it was. */
  method NewGiveawayModule(b: Bot)
    modifies b.engine
    ensures b.engine.commands == if "giveaway" in old(b.engine.commands) then old(b.engine.commands)
      else old(b.engine.commands)["giveaway" := Command("Giveaway command", GiveawayCmd, 0)]
  {
    var _ := b.AddCommand("giveaway", "Giveaway command", GiveawayCmd, 0);
  }

  /** No giveaway lists anyone twice. */
  ghost predicate Distinct(gs: seq<Entry<Giveaway>>) {
    forall k, i, j :: 0 <= k < |gs| && 0 <= i < j < |gs[k].rec.participants| ==>
      gs[k].rec.participants[i] != gs[k].rec.participants[j]
  }

  /**
   * A registration keeps every giveaway free of duplicates, puts the caller on the list of
   * the giveaway with the tag, and keeps that giveaway first with its tag, so the caller
   * asking again is told they are already registered.
   */
  lemma RegistrationIsOnce(gs: seq<Entry<Giveaway>>, tag: string, username: string)
    requires Distinct(gs)
    requires TagIndex(gs, tag) < |gs|
    requires username !in gs[TagIndex(gs, tag)].rec.participants
    ensures var k := TagIndex(gs, tag);
      var after := gs[k := Entry(gs[k].id, Joined(gs[k].rec, username))];
      Distinct(after) && TagIndex(after, tag) == k && username in after[k].rec.participants
  {
    var k := TagIndex(gs, tag);
    var after := gs[k := Entry(gs[k].id, Joined(gs[k].rec, username))];
    TagIndexOfReplaced(gs, tag, k, Joined(gs[k].rec, username));
    var ps := after[k].rec.participants;
    assert ps[|ps| - 1] == username;
    forall m, i, j | 0 <= m < |after| && 0 <= i < j < |after[m].rec.participants|
      ensures after[m].rec.participants[i] != after[m].rec.participants[j]
    {
      if m == k && j == |ps| - 1 {
        assert ps[i] == gs[k].rec.participants[i];
      }
    }
  }

  /** Replacing the first giveaway with the tag by one with the same tag keeps it first. */
  lemma {:induction false} TagIndexOfReplaced(gs: seq<Entry<Giveaway>>, tag: string, k: nat, g: Giveaway)
    requires k == TagIndex(gs, tag) && k < |gs| && g.tag == tag
    ensures TagIndex(gs[k := Entry(gs[k].id, g)], tag) == k
    decreases |gs|
  {
    if k > 0 {
      assert gs[k := Entry(gs[k].id, g)][1..] == gs[1..][k - 1 := Entry(gs[k].id, g)];
      TagIndexOfReplaced(gs[1..], tag, k - 1, g);
    }
  }
}

/**
 * The marathon module's chat commands and RPC service. Every command reads the current
 * marathon (record 1) from the store, applies a transition, writes the whole record back
 * through the service's `Update` and then announces what happened. "!marathon" without
 * arguments reports the running game; with arguments it dispatches to the admin-only
 * subcommands next, resetgame and resetmarathon. The older revision differs only in its
 * untyped context and in the "next" command changing the stream's game through the game
 * module's own "setgame" handler.
 */
module MarathonCommands {
  import opened Wrappers
  import opened Twitch
  import opened Commands
  import opened Storage
  import opened Bot
  import Rpc
  import opened Marathon
  import GameCommands

  /** The ID of the marathon the commands work on. */
  const CurrentMarathon := 1

  /** The marathon subcommands, all at level 10. */
  const SubCommands: map<string, Command> := map[
    "next" := Command("go to next game", MarathonNext, 10),
    "resetgame" := Command("reset the game", MarathonResetGame, 10),
    "resetmarathon" := Command("reset the marathon", MarathonResetMarathon, 10)]

  /**
   * `NewMarathonModule`: a fresh subcommand engine holding the three subcommands, then the
   * "status" and "time" template functions; a clash on either name fails the module (a
   * "status" added before the clash on "time" stays).
   */
  method NewMarathonModule(b: Bot) returns (err: Outcome, sub: CmdEngine)
    modifies b
    ensures fresh(sub) && sub.commands == SubCommands
    ensures err.Ok? <==> "status" !in old(b.funcMap) && "time" !in old(b.funcMap)
    ensures b.funcMap ==
      if "status" in old(b.funcMap) then old(b.funcMap)
      else if "time" in old(b.funcMap) then old(b.funcMap)["status" := StatusFunc]
      else old(b.funcMap)["status" := StatusFunc]["time" := TimeFunc]
    ensures b.modules == old(b.modules) && b.started == old(b.started) && b.rpcServices == old(b.rpcServices)
  {
    sub := new CmdEngine();
    var _ := sub.AddCommand("next", "go to next game", MarathonNext, 10);
    var _ := sub.AddCommand("resetgame", "reset the game", MarathonResetGame, 10);
    var _ := sub.AddCommand("resetmarathon", "reset the marathon", MarathonResetMarathon, 10);
    err := b.AddTemplateFunc("status", StatusFunc);
    if err.Err? {
      return;
    }
    err := b.AddTemplateFunc("time", TimeFunc);
  }

  /** The marathon record the commands read, or None when the read fails or there is none. */
  function Loaded(store: Store<Marathon>): Option<Marathon>
    reads store
  {
    if store.readable then Find(store.entries, CurrentMarathon) else None
  }

  /** What `showMarathon` says about the games. */
  function StatusLine(gs: seq<Game>): string {
    match CurrentGame(gs)
    case None => "Marathon is not running"
    case Some(k) => "Current game is: " + gs[k].name
  }

  /** `showMarathon`: says which game runs; a failed read is returned and nothing is said. */
  method ShowMarathon(store: Store<Marathon>, irc: Irc, cc: CommandContext) returns (err: Outcome)
    modifies irc
    ensures Loaded(store).None? ==> err == Err(StoreError) && irc.said == old(irc.said)
    ensures Loaded(store).Some? ==>
      err == Ok && irc.said == old(irc.said) + [Line(cc.channel, StatusLine(Loaded(store).value.games))]
  {
    var e, m := Rpc.Get(store, CurrentMarathon);
    if e.Err? {
      return e;
    }
    irc.Say(cc.channel, StatusLine(m.value.games));
    err := Ok;
  }

  /** The game the stream is switched to when `g` starts: its Twitch game if set, else its name. */
  function StreamGame(g: Game): string {
    if g.twitchGame.Some? then g.twitchGame.value else g.name
  }

  /**
   * What "next" announces: the game that was running is complete (if one was), and the game
   * running afterwards has started (if one is).
   */
  function NextLines(gs: seq<Game>, now: int): seq<string> {
    var after := Advance(gs, now);
    (match CurrentGame(gs) case None => [] case Some(p) => [gs[p].name + " complete!"]) +
    (match CurrentGame(after) case None => [] case Some(n) => [after[n].name + " started!"])
  }

  /** The game "next" switches the stream to: that of the game running afterwards, if any. */
  function NextStreamGame(gs: seq<Game>, now: int): Option<string> {
    var after := Advance(gs, now);
    match CurrentGame(after) case None => None case Some(n) => Some(StreamGame(after[n]))
  }

  /**
   * "next" announces the running game (if any) as complete and the first game that had not
   * started (if any) as started, and switches the stream to the latter.
   */
  lemma NextAnnouncements(gs: seq<Game>, now: int)
    ensures NextLines(gs, now) ==
      (match CurrentGame(gs) case None => [] case Some(p) => [gs[p].name + " complete!"]) +
      (if FirstStartable(gs) < |gs| then [gs[FirstStartable(gs)].name + " started!"] else [])
    ensures NextStreamGame(gs, now) ==
      if FirstStartable(gs) < |gs| then Some(StreamGame(gs[FirstStartable(gs)])) else None
    ensures FirstStartable(gs) < |gs| ==> StatusLine(Advance(gs, now)) == "Current game is: " + gs[FirstStartable(gs)].name
    ensures FirstStartable(gs) == |gs| ==> StatusLine(Advance(gs, now)) == "Marathon is not running"
  {
    AdvanceAt(gs, now);
    AdvanceCurrent(gs, now);
  }

  /** The effect of "next" (`marathonNextCommand`) on the store, the chat and the API. */
  twostate predicate NextDone(store: Store<Marathon>, irc: Irc, api: Api, cc: CommandContext, now: int, err: Outcome)
    reads store, irc, api
  {
    var m := old(Loaded(store));
    store.Valid() && store.readable == old(store.readable) && store.writable == old(store.writable)
    && api.channel == old(api.channel) && api.follows == old(api.follows) && api.setOk == old(api.setOk)
    && if m.None? || !store.writable then
      err == Err(StoreError) && store.entries == old(store.entries) && store.next == old(store.next)
      && irc.said == old(irc.said) && api.gameSets == old(api.gameSets)
    else
      err == Ok && store.next == old(store.next)
      && store.entries == Upsert(old(store.entries), CurrentMarathon, Marathon(m.value.name, Advance(m.value.games, now)))
      && irc.said == old(irc.said) + Lines(cc.channel, NextLines(m.value.games, now))
      && api.gameSets == old(api.gameSets) +
        (if NextStreamGame(m.value.games, now).Some? && api.setOk
         then [(cc.channel, NextStreamGame(m.value.games, now).value)] else [])
  }

  /** The games as a fresh array. */
  method ToArray(gs: seq<Game>) returns (a: array<Game>)
    ensures fresh(a) && a[..] == gs
  {
    a := new Game[|gs|](i requires 0 <= i < |gs| => gs[i]);
  }

  /**
   * The read-step-write part of "next": reads the marathon, steps its games and writes it
   * back; a failed read or write is returned with the store as it was.
   */
  method StepMarathon(store: Store<Marathon>, cfg: Config, now: int) returns (err: Outcome, m: Marathon)
    requires store.Valid()
    modifies store
    ensures store.Valid() && store.readable == old(store.readable) && store.writable == old(store.writable)
    ensures store.next == old(store.next)
    ensures err.Ok? <==> old(Loaded(store)).Some? && store.writable
    ensures err.Err? ==> err == Err(StoreError) && store.entries == old(store.entries)
    ensures err.Ok? ==>
      (m == old(Loaded(store)).value
       && store.entries == Upsert(old(store.entries), CurrentMarathon, Marathon(m.name, Advance(m.games, now))))
  {
    var e, r := Rpc.Get(store, CurrentMarathon);
    if e.Err? {
      return e, Marathon(None, []);
    }
    m := r.value;
    var games := ToArray(m.games);
    var _ := NextGame(games, now);
    var reply;
    err, reply := Rpc.Update(store, cfg, None, CurrentMarathon, Marathon(m.name, games[..]), 0);
  }

  /**
   * The announcing part of "next": the game that completed, the game that started, and the
   * stream switched to the latter (a failed switch is ignored).
   */
  method AnnounceNext(irc: Irc, api: Api, cc: CommandContext, gs: seq<Game>, now: int)
    modifies irc, api
    ensures api.channel == old(api.channel) && api.follows == old(api.follows) && api.setOk == old(api.setOk)
    ensures irc.said == old(irc.said) + Lines(cc.channel, NextLines(gs, now))
    ensures api.gameSets == old(api.gameSets) +
      (if NextStreamGame(gs, now).Some? && api.setOk then [(cc.channel, NextStreamGame(gs, now).value)] else [])
  {
    var prev := CurrentGame(gs);
    var after := Advance(gs, now);
    var next := CurrentGame(after);
    LinesOfNext(cc.channel, gs, now);
    if prev.Some? {
      irc.Say(cc.channel, gs[prev.value].name + " complete!");
    }
    if next.Some? {
      irc.Say(cc.channel, after[next.value].name + " started!");
      var _ := api.SetChannelGame(cc.channel, StreamGame(after[next.value]));
    }
  }

  /**
   * `marathonNextCommand`: reads the marathon, steps it, writes it back, then announces the
   * game that completed and the game that started, and switches the stream to the latter.
   * A failed read or write is returned before anything is announced.
   */
  method NextCommand(store: Store<Marathon>, cfg: Config, irc: Irc, api: Api, cc: CommandContext, now: int)
    returns (err: Outcome)
    requires store.Valid()
    modifies store, irc, api
    ensures NextDone(store, irc, api, cc, now, err)
  {
    var m;
    err, m := StepMarathon(store, cfg, now);
    if err.Err? {
      return;
    }
    AnnounceNext(irc, api, cc, m.games, now);
  }

  lemma LinesOfNext(channel: string, gs: seq<Game>, now: int)
    ensures |NextLines(gs, now)| <= 2
    ensures |NextLines(gs, now)| == 0 ==> Lines(channel, NextLines(gs, now)) == []
    ensures |NextLines(gs, now)| == 1 ==> Lines(channel, NextLines(gs, now)) == [Line(channel, NextLines(gs, now)[0])]
    ensures |NextLines(gs, now)| == 2 ==>
      Lines(channel, NextLines(gs, now)) == [Line(channel, NextLines(gs, now)[0]), Line(channel, NextLines(gs, now)[1])]
  {
  }

  /** Which reset a command performs. */
  datatype ResetKind = RunningGame | WholeMarathon

  function ResetOf(kind: ResetKind, gs: seq<Game>): seq<Game> {
    match kind
    case RunningGame => ResetRunning(gs)
    case WholeMarathon => ResetAll(gs)
  }

  /** The effect of "resetgame" and "resetmarathon" on the store and the chat. */
  twostate predicate ResetDone(store: Store<Marathon>, irc: Irc, cc: CommandContext, kind: ResetKind, err: Outcome)
    reads store, irc
  {
    var m := old(Loaded(store));
    store.Valid() && store.readable == old(store.readable) && store.writable == old(store.writable)
    && if m.None? || !store.writable then
      err == Err(StoreError) && store.entries == old(store.entries) && store.next == old(store.next)
      && irc.said == old(irc.said)
    else
      err == Ok && store.next == old(store.next)
      && store.entries == Upsert(old(store.entries), CurrentMarathon, Marathon(m.value.name, ResetOf(kind, m.value.games)))
      && irc.said == old(irc.said) + [Line(cc.channel, "RESET!")]
  }

  /**
   * `marathonResetGameCommand` and `marathonResetMarathonCommand`: read the marathon, reset
   * its running game or all its games, write it back and say "RESET!". A failed read or
   * write is returned and nothing is said.
   */
  method ResetCommand(store: Store<Marathon>, cfg: Config, irc: Irc, cc: CommandContext, kind: ResetKind)
    returns (err: Outcome)
    requires store.Valid()
    modifies store, irc
    ensures ResetDone(store, irc, cc, kind, err)
  {
    var e, m := Rpc.Get(store, CurrentMarathon);
    if e.Err? {
      return e;
    }
    var games := ToArray(m.value.games);
    match kind {
      case RunningGame => ResetGame(games);
      case WholeMarathon => ResetMarathon(games);
    }
    var e2, _ := Rpc.Update(store, cfg, None, CurrentMarathon, Marathon(m.value.name, games[..]), 0);
    if e2.Err? {
      return e2;
    }
    irc.Say(cc.channel, "RESET!");
    err := Ok;
  }

  /** Where "!marathon" with these arguments goes. */
  datatype Route = Show | Run(handler: Handler) | Refuse(msg: string)

  function RouteOf(level: int, args: seq<string>): (r: Route)
    ensures r.Run? ==> r.handler in {MarathonNext, MarathonResetGame, MarathonResetMarathon}
  {
    if args == [] then Show
    else
      var d := Exec(SubCommands, level, args);
      if d.Invoke? then Run(d.handler) else Refuse(DispatchError(d))
  }

  /**
   * Without arguments "!marathon" shows the marathon to anyone; with arguments it runs one
   * of the three subcommands exactly when the first argument names one and the caller's
   * level is at least 10, and is refused otherwise.
   */
  lemma RouteFacts(level: int, args: seq<string>)
    ensures RouteOf(level, args).Show? <==> args == []
    ensures RouteOf(level, args).Run? <==>
      args != [] && args[0] in {"next", "resetgame", "resetmarathon"} && level >= 10
    ensures args != [] && args[0] == "next" && level >= 10 ==> RouteOf(level, args) == Run(MarathonNext)
    ensures args != [] && args[0] == "resetgame" && level >= 10 ==> RouteOf(level, args) == Run(MarathonResetGame)
    ensures args != [] && args[0] == "resetmarathon" && level >= 10 ==> RouteOf(level, args) == Run(MarathonResetMarathon)
  {
  }

  /**
   * `marathonCommand`: without arguments shows the marathon; with arguments runs the
   * subcommand the first one names at the caller's level, or fails with the engine's error
   * and changes nothing.
   */
  method MarathonCommand(store: Store<Marathon>, cfg: Config, irc: Irc, api: Api, cc: CommandContext,
                         args: seq<string>, now: int) returns (err: Outcome)
    requires store.Valid()
    modifies store, irc, api
    ensures store.Valid()
    ensures RouteOf(cc.userLevel, args).Show? ==>
      unchanged(store, api) &&
      (Loaded(store).None? ==> err == Err(StoreError) && irc.said == old(irc.said)) &&
      (Loaded(store).Some? ==>
        err == Ok && irc.said == old(irc.said) + [Line(cc.channel, StatusLine(Loaded(store).value.games))])
    ensures RouteOf(cc.userLevel, args).Refuse? ==>
      err == Err(RouteOf(cc.userLevel, args).msg) && unchanged(store, irc, api)
    ensures RouteOf(cc.userLevel, args) == Run(MarathonNext) ==> NextDone(store, irc, api, cc, now, err)
    ensures RouteOf(cc.userLevel, args) == Run(MarathonResetGame) ==>
      ResetDone(store, irc, cc, RunningGame, err) && unchanged(api)
    ensures RouteOf(cc.userLevel, args) == Run(MarathonResetMarathon) ==>
      ResetDone(store, irc, cc, WholeMarathon, err) && unchanged(api)
  {
    match RouteOf(cc.userLevel, args) {
      case Show => err := ShowMarathon(store, irc, cc);
      case Refuse(msg) => err := Err(msg);
      case Run(h) =>
        if h == MarathonNext {
          err := NextCommand(store, cfg, irc, api, cc, now);
        } else if h == MarathonResetGame {
          err := ResetCommand(store, cfg, irc, cc, RunningGame);
        } else {
          err := ResetCommand(store, cfg, irc, cc, WholeMarathon);
        }
    }
  }

  /**
   * The effect of the older "next": as `NextDone`, except that the stream's game is set
   * through the older "setgame" handler, which sets it on the channel `GetChannel` names and
   * confirms it in chat; that handler's failures are ignored.
   */
  twostate predicate LegacyNextDone(store: Store<Marathon>, irc: Irc, api: Api, cc: CommandContext, now: int, err: Outcome)
    reads store, irc, api
  {
    var m := old(Loaded(store));
    store.Valid() && store.readable == old(store.readable) && store.writable == old(store.writable)
    && api.channel == old(api.channel) && api.follows == old(api.follows) && api.setOk == old(api.setOk)
    && if m.None? || !store.writable then
      err == Err(StoreError) && store.entries == old(store.entries) && store.next == old(store.next)
      && irc.said == old(irc.said) && api.gameSets == old(api.gameSets)
    else
      var game := NextStreamGame(m.value.games, now);
      var switched := game.Some? && api.channel.Some? && api.setOk;
      err == Ok && store.next == old(store.next)
      && store.entries == Upsert(old(store.entries), CurrentMarathon, Marathon(m.value.name, Advance(m.value.games, now)))
      && irc.said == old(irc.said) + Lines(cc.channel, NextLines(m.value.games, now))
        + (if switched then [Line(cc.channel, GameCommands.SetGameResponse(game.value))] else [])
      && api.gameSets == old(api.gameSets) + (if switched then [(api.channel.value.name, game.value)] else [])
  }

  /**
   * The announcing part of the older "next": as `AnnounceNext`, but the stream is switched
   * by the older "setgame" handler, whose failures are ignored.
   */
  method LegacyAnnounceNext(irc: Irc, api: Api, ctx: Ctx, gs: seq<Game>, now: int)
    requires ctx.Chat?
    modifies irc, api
    ensures api.channel == old(api.channel) && api.follows == old(api.follows) && api.setOk == old(api.setOk)
    ensures var game := NextStreamGame(gs, now);
      var switched := game.Some? && api.channel.Some? && api.setOk;
      irc.said == old(irc.said) + Lines(ctx.cc.channel, NextLines(gs, now))
        + (if switched then [Line(ctx.cc.channel, GameCommands.SetGameResponse(game.value))] else [])
      && api.gameSets == old(api.gameSets) + (if switched then [(api.channel.value.name, game.value)] else [])
  {
    var cc := ctx.cc;
    var prev := CurrentGame(gs);
    var after := Advance(gs, now);
    var next := CurrentGame(after);
    LinesOfNext(cc.channel, gs, now);
    if prev.Some? {
      irc.Say(cc.channel, gs[prev.value].name + " complete!");
    }
    if next.Some? {
      irc.Say(cc.channel, after[next.value].name + " started!");
      var game := StreamGame(after[next.value]);
      assert Text.Join([game], " ") == game;
      var _ := GameCommands.LegacySetGameCommand(api, irc, ctx, [game]);
    }
  }

  /**
   * The older `marathonNextCommand`: refuses a context that is not a command context,
   * changing nothing; otherwise steps the marathon as "next" does.
   */
  method LegacyNextCommand(store: Store<Marathon>, cfg: Config, irc: Irc, api: Api, ctx: Ctx, now: int)
    returns (err: Outcome)
    requires store.Valid()
    modifies store, irc, api
    ensures ctx.Foreign? ==> err == Err(NotCommandContext) && unchanged(store, irc, api)
    ensures ctx.Chat? ==> LegacyNextDone(store, irc, api, ctx.cc, now, err)
  {
    if ctx.Foreign? {
      return Err(NotCommandContext);
    }
    var m;
    err, m := StepMarathon(store, cfg, now);
    if err.Err? {
      return;
    }
    LegacyAnnounceNext(irc, api, ctx, m.games, now);
  }

  /** The older reset handlers: refuse a context that is not a command context, changing nothing. */
  method LegacyResetCommand(store: Store<Marathon>, cfg: Config, irc: Irc, ctx: Ctx, kind: ResetKind)
    returns (err: Outcome)
    requires store.Valid()
    modifies store, irc
    ensures ctx.Foreign? ==> err == Err(NotCommandContext) && unchanged(store, irc)
    ensures ctx.Chat? ==> ResetDone(store, irc, ctx.cc, kind, err)
  {
    if ctx.Foreign? {
      return Err(NotCommandContext);
    }
    err := ResetCommand(store, cfg, irc, ctx.cc, kind);
  }

  /**
   * The older `marathonCommand`: refuses a context that is not a command context, changing
   * nothing; otherwise routes as "!marathon" does, to the older handlers.
   */
  method LegacyMarathonCommand(store: Store<Marathon>, cfg: Config, irc: Irc, api: Api, ctx: Ctx,
                               args: seq<string>, now: int) returns (err: Outcome)
    requires store.Valid()
    modifies store, irc, api
    ensures ctx.Foreign? ==> err == Err(NotCommandContext) && unchanged(store, irc, api)
    ensures ctx.Chat? && RouteOf(ctx.cc.userLevel, args).Show? ==>
      unchanged(store, api) &&
      (Loaded(store).None? ==> err == Err(StoreError) && irc.said == old(irc.said)) &&
      (Loaded(store).Some? ==>
        err == Ok && irc.said == old(irc.said) + [Line(ctx.cc.channel, StatusLine(Loaded(store).value.games))])
    ensures ctx.Chat? && RouteOf(ctx.cc.userLevel, args).Refuse? ==>
      err == Err(RouteOf(ctx.cc.userLevel, args).msg) && unchanged(store, irc, api)
    ensures ctx.Chat? && RouteOf(ctx.cc.userLevel, args) == Run(MarathonNext) ==>
      LegacyNextDone(store, irc, api, ctx.cc, now, err)
    ensures ctx.Chat? && RouteOf(ctx.cc.userLevel, args) == Run(MarathonResetGame) ==>
      ResetDone(store, irc, ctx.cc, RunningGame, err) && unchanged(api)
    ensures ctx.Chat? && RouteOf(ctx.cc.userLevel, args) == Run(MarathonResetMarathon) ==>
      ResetDone(store, irc, ctx.cc, WholeMarathon, err) && unchanged(api)
  {
    if ctx.Foreign? {
      return Err(NotCommandContext);
    }
    match RouteOf(ctx.cc.userLevel, args) {
      case Show => err := ShowMarathon(store, irc, ctx.cc);
      case Refuse(msg) => err := Err(msg);
      case Run(h) =>
        if h == MarathonNext {
          err := LegacyNextCommand(store, cfg, irc, api, ctx, now);
        } else if h == MarathonResetGame {
          err := LegacyResetCommand(store, cfg, irc, ctx, RunningGame);
        } else {
          err := LegacyResetCommand(store, cfg, irc, ctx, WholeMarathon);
        }
    }
  }

  /** The first "next" over games that have not started starts game 0 and completes nothing. */
  lemma FirstNext(gs: seq<Game>, t1: int)
    requires |gs| >= 2 && forall i :: 0 <= i < |gs| ==> gs[i].status == Some(NotStarted)
    ensures var s1 := Advance(gs, t1);
      NextLines(gs, t1) == [gs[0].name + " started!"]
      && |s1| == |gs| && IsRunning(s1[0]) && s1[0].startedTime == Some(t1) && s1[1..] == gs[1..]
  {
    var s1 := Advance(gs, t1);
    assert FirstStartable(gs) == 0;
    AdvanceAt(gs, t1);
    NextAnnouncements(gs, t1);
    assert CurrentGame(gs).None?;
    assert s1[1..] == gs[1..];
  }

  /** The second "next" completes game 0 and starts game 1. */
  lemma SecondNext(gs: seq<Game>, t1: int, t2: int)
    requires |gs| >= 2 && forall i :: 0 <= i < |gs| ==> gs[i].status == Some(NotStarted)
    ensures var s1 := Advance(gs, t1); var s2 := Advance(s1, t2);
      NextLines(s1, t2) == [gs[0].name + " complete!", gs[1].name + " started!"]
      && |s2| == |gs| && IsFinished(s2[0]) && s2[0].endedTime == Some(t2)
      && IsRunning(s2[1]) && s2[1].startedTime == Some(t2) && s2[2..] == gs[2..]
  {
    FirstNext(gs, t1);
    var s1 := Advance(gs, t1);
    assert s1[1] == gs[1];
    var s2 := Advance(s1, t2);
    assert FirstStartable(s1) == 1 by {
      assert !Startable(s1[0]) && Startable(s1[1]);
    }
    AdvanceAt(s1, t2);
    NextAnnouncements(s1, t2);
    assert CurrentGame(s1) == Some(0);
    assert s2[2..] == s1[2..] == gs[2..];
  }

  /** After the two steps "resetgame" reverts only game 1 and "resetmarathon" every game. */
  lemma ResetsAfterTwo(gs: seq<Game>, t1: int, t2: int)
    requires |gs| >= 2 && forall i :: 0 <= i < |gs| ==> gs[i].status == Some(NotStarted)
    ensures var s2 := Advance(Advance(gs, t1), t2); var s3 := ResetRunning(s2);
      |s2| == |gs| && s3[0] == s2[0] && s3[1] == Reset(s2[1]) && s3[2..] == s2[2..]
    ensures var s2 := Advance(Advance(gs, t1), t2);
      |s2| == |gs| && forall i :: 0 <= i < |gs| ==> ResetAll(s2)[i] == Reset(gs[i])
  {
    SecondNext(gs, t1, t2);
    var s2 := Advance(Advance(gs, t1), t2);
    var s3 := ResetRunning(s2);
    assert forall i :: 2 <= i < |s2| ==> s2[i] == gs[i];
    assert s3[2..] == s2[2..];
  }

  /**
   * A marathon of games that have not started, driven by the commands: the first "next"
   * starts game 0 and announces no completed game; the second finishes game 0 and starts
   * game 1; "resetgame" then reverts only game 1, and "resetmarathon" reverts every game.
   */
  lemma MarathonWalkthrough(gs: seq<Game>, t1: int, t2: int)
    requires |gs| >= 2 && forall i :: 0 <= i < |gs| ==> gs[i].status == Some(NotStarted)
    ensures var s1 := Advance(gs, t1);
      NextLines(gs, t1) == [gs[0].name + " started!"]
      && IsRunning(s1[0]) && s1[0].startedTime == Some(t1) && s1[1..] == gs[1..]
    ensures var s1 := Advance(gs, t1); var s2 := Advance(s1, t2);
      NextLines(s1, t2) == [gs[0].name + " complete!", gs[1].name + " started!"]
      && IsFinished(s2[0]) && s2[0].endedTime == Some(t2)
      && IsRunning(s2[1]) && s2[1].startedTime == Some(t2) && s2[2..] == gs[2..]
    ensures var s2 := Advance(Advance(gs, t1), t2); var s3 := ResetRunning(s2);
      s3[0] == s2[0] && s3[1] == Reset(s2[1]) && s3[2..] == s2[2..]
    ensures var s2 := Advance(Advance(gs, t1), t2);
      forall i :: 0 <= i < |gs| ==> ResetAll(s2)[i] == Reset(gs[i])
  {
    FirstNext(gs, t1);
    SecondNext(gs, t1, t2);
    ResetsAfterTwo(gs, t1, t2);
  }
}

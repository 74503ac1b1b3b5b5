/**
 * The marathon state machine: an ordered list of games, each not started, running or
 * finished, that the "next" command walks through. The transitions work in place on the
 * game array; each is specified by a function on the sequence of games, and the lemmas
 * below state what the transitions promise about that sequence.
 */
module Marathon {
  import opened Wrappers
  import opened Text

  const NotStarted := 0
  const Running := 1
  const Finished := 2

  /**
   * `MarathonGame`. A status or a timestamp may be absent (a nil pointer); times are
   * nanosecond counts.
   */
  datatype Game = Game(
    name: string,
    twitchGame: Option<string>,
    link: Option<string>,
    system: Option<string>,
    status: Option<int>,
    startedTime: Option<int>,
    endedTime: Option<int>)

  /** `Marathon`, without its ID (the store key). */
  datatype Marathon = Marathon(name: Option<string>, games: seq<Game>)

  /** A game the scan may start: no status yet, or not started. */
  predicate Startable(g: Game) {
    g.status.None? || g.status.value == NotStarted
  }

  predicate IsRunning(g: Game) {
    g.status == Some(Running)
  }

  predicate IsFinished(g: Game) {
    g.status == Some(Finished)
  }

  /** The game started at `now`; its end time, if any, is kept. */
  function Start(g: Game, now: int): Game {
    g.(status := Some(Running), startedTime := Some(now))
  }

  /** The game finished at `now`. */
  function Finish(g: Game, now: int): Game {
    g.(status := Some(Finished), endedTime := Some(now))
  }

  /** A game the scan passes over: finished if it was running, otherwise left as it is. */
  function Passed(g: Game, now: int): Game {
    if IsRunning(g) then Finish(g, now) else g
  }

  /**
   * What `NextGame` does to the games: the scan passes over games until the first one it
   * can start, starts that one and stops.
   */
  function Advance(gs: seq<Game>, now: int): (r: seq<Game>)
    ensures |r| == |gs|
    decreases |gs|
  {
    if gs == [] then []
    else if Startable(gs[0]) then [Start(gs[0], now)] + gs[1..]
    else [Passed(gs[0], now)] + Advance(gs[1..], now)
  }

  /** Position of the first startable game, or `|gs|` when there is none. */
  function FirstStartable(gs: seq<Game>): (k: nat)
    ensures k <= |gs|
    ensures k < |gs| ==> Startable(gs[k])
    ensures forall j :: 0 <= j < k ==> !Startable(gs[j])
  {
    if gs == [] || Startable(gs[0]) then 0 else 1 + FirstStartable(gs[1..])
  }

  /**
   * `NextGame`, game by game: every game before the first startable one is passed over
   * (running ones finish, all others are untouched), the first startable one is started,
   * and every game after it is untouched.
   */
  lemma {:induction false} AdvanceAtIndex(gs: seq<Game>, now: int, j: nat)
    requires j < |gs|
    ensures |Advance(gs, now)| == |gs|
    ensures Advance(gs, now)[j] ==
      if j < FirstStartable(gs) then Passed(gs[j], now)
      else if j == FirstStartable(gs) then Start(gs[j], now)
      else gs[j]
    decreases j
  {
    if j > 0 && !Startable(gs[0]) {
      var t := gs[1..];
      AdvanceAtIndex(t, now, j - 1);
      assert FirstStartable(gs) == 1 + FirstStartable(t);
      assert Advance(gs, now) == [Passed(gs[0], now)] + Advance(t, now);
      assert gs[j] == t[j - 1];
    }
  }

  lemma AdvanceAt(gs: seq<Game>, now: int)
    ensures |Advance(gs, now)| == |gs|
    ensures forall j :: 0 <= j < |gs| ==>
      Advance(gs, now)[j] ==
        if j < FirstStartable(gs) then Passed(gs[j], now)
        else if j == FirstStartable(gs) then Start(gs[j], now)
        else gs[j]
  {
    forall j | 0 <= j < |gs|
      ensures Advance(gs, now)[j] ==
        if j < FirstStartable(gs) then Passed(gs[j], now)
        else if j == FirstStartable(gs) then Start(gs[j], now)
        else gs[j]
    {
      AdvanceAtIndex(gs, now, j);
    }
  }

  /** `CurrentGame`: the position of the first running game, or None when no game runs. */
  function CurrentGame(gs: seq<Game>): (r: Option<nat>)
    ensures r.Some? ==> r.value < |gs| && IsRunning(gs[r.value])
    ensures r.Some? ==> forall j :: 0 <= j < r.value ==> !IsRunning(gs[j])
    ensures r.None? ==> forall j :: 0 <= j < |gs| ==> !IsRunning(gs[j])
  {
    if gs == [] then None
    else if IsRunning(gs[0]) then Some(0)
    else match CurrentGame(gs[1..])
      case None => None
      case Some(k) => Some(k + 1)
  }

  /**
   * `NextGame`: fails on a marathon without games; otherwise finishes the running games it
   * passes, starts the first game that has not started, and stops there.
   */
  method NextGame(games: array<Game>, now: int) returns (err: Outcome)
    modifies games
    ensures err == if games.Length == 0 then Err("No games.") else Ok
    ensures games[..] == Advance(old(games[..]), now)
  {
    if games.Length == 0 {
      return Err("No games.");
    }
    ghost var orig := games[..];
    AdvanceAt(orig, now);
    var i := 0;
    while i < games.Length
      invariant 0 <= i <= games.Length && i <= FirstStartable(orig)
      invariant forall j :: 0 <= j < i ==> games[j] == Passed(orig[j], now)
      invariant forall j :: i <= j < games.Length ==> games[j] == orig[j]
    {
      var g := games[i];
      if Startable(g) {
        games[i] := Start(g, now);
        assert games[..] == Advance(orig, now);
        return Ok;
      } else if IsRunning(g) {
        games[i] := Finish(g, now);
      }
      i := i + 1;
    }
    assert games[..] == Advance(orig, now);
    err := Ok;
  }

  /** After a step the game that runs is exactly the one that was started, if any. */
  lemma AdvanceCurrent(gs: seq<Game>, now: int)
    ensures CurrentGame(Advance(gs, now)) ==
      if FirstStartable(gs) < |gs| then Some(FirstStartable(gs)) else None
  {
    AdvanceAt(gs, now);
    var a := Advance(gs, now);
    var k := FirstStartable(gs);
    assert forall j :: 0 <= j < k ==> !IsRunning(a[j]);
    if k < |gs| {
      assert IsRunning(a[k]);
    }
  }

  /** A game whose status is one of the three the bot knows. */
  predicate Known(g: Game) {
    g.status.None? || 0 <= g.status.value <= 2
  }

  /** Finished games first, then at most one running game, then games not started. */
  function Rank(g: Game): int {
    if IsFinished(g) then 2 else if IsRunning(g) then 1 else 0
  }

  ghost predicate Shaped(gs: seq<Game>) {
    (forall i :: 0 <= i < |gs| ==> Known(gs[i])) &&
    (forall i, j :: 0 <= i < j < |gs| ==> Rank(gs[j]) <= Rank(gs[i])) &&
    (forall i, j :: 0 <= i < j < |gs| ==> !(IsRunning(gs[i]) && IsRunning(gs[j])))
  }

  /**
   * A step keeps the marathon in shape (finished games, at most one running game, games
   * not started), so at most one game ever runs.
   */
  lemma AdvanceShaped(gs: seq<Game>, now: int)
    requires Shaped(gs)
    ensures Shaped(Advance(gs, now))
  {
    var a := Advance(gs, now);
    var k := FirstStartable(gs);
    forall j | 0 <= j < |a|
      ensures Known(a[j]) && (IsRunning(a[j]) <==> j == k)
      ensures Rank(a[j]) == if j < k then 2 else if j == k then 1 else 0
    {
      AdvanceAtIndex(gs, now, j);
      if k < j {
        assert Rank(gs[j]) <= Rank(gs[k]);
      }
    }
    ShapedByRank(a, k);
  }

  /** Games finished before `k`, running at `k` and not started after it are in shape. */
  lemma ShapedByRank(a: seq<Game>, k: int)
    requires forall j :: 0 <= j < |a| ==> Known(a[j]) && (IsRunning(a[j]) <==> j == k)
    requires forall j :: 0 <= j < |a| ==> Rank(a[j]) == if j < k then 2 else if j == k then 1 else 0
    ensures Shaped(a)
  {
  }

  /**
   * Out of shape, two games can run: a running game placed after one that has not
   * started is never reached by the scan.
   */
  lemma RunningAfterNotStartedStaysRunning(a: Game, b: Game, now: int)
    requires Startable(a) && IsRunning(b)
    ensures var r := Advance([a, b], now); IsRunning(r[0]) && IsRunning(r[1])
  {
    assert [a, b][1..] == [b];
  }

  /** A running game reset to not started, without timestamps. */
  function Reset(g: Game): (r: Game)
    ensures Startable(r) && !IsRunning(r) && r.startedTime.None? && r.endedTime.None?
    ensures r.name == g.name && r.twitchGame == g.twitchGame && r.link == g.link && r.system == g.system
  {
    g.(status := Some(NotStarted), startedTime := None, endedTime := None)
  }

  /** What `ResetGame` does to the games: running ones are reset, all others are untouched. */
  function ResetRunning(gs: seq<Game>): (r: seq<Game>)
    ensures |r| == |gs|
  {
    seq(|gs|, i requires 0 <= i < |gs| => if IsRunning(gs[i]) then Reset(gs[i]) else gs[i])
  }

  /** What `ResetMarathon` does to the games: every one is reset. */
  function ResetAll(gs: seq<Game>): (r: seq<Game>)
    ensures |r| == |gs|
  {
    seq(|gs|, i requires 0 <= i < |gs| => Reset(gs[i]))
  }

  /** `ResetGame`: every running game becomes not started, without timestamps. */
  method ResetGame(games: array<Game>)
    modifies games
    ensures games[..] == ResetRunning(old(games[..]))
  {
    for i := 0 to games.Length
      invariant forall j :: 0 <= j < i ==> games[j] == ResetRunning(old(games[..]))[j]
      invariant forall j :: i <= j < games.Length ==> games[j] == old(games[j])
    {
      if IsRunning(games[i]) {
        games[i] := Reset(games[i]);
      }
    }
  }

  /** `ResetMarathon`: every game becomes not started, without timestamps. */
  method ResetMarathon(games: array<Game>)
    modifies games
    ensures games[..] == ResetAll(old(games[..]))
  {
    for i := 0 to games.Length
      invariant forall j :: 0 <= j < i ==> games[j] == ResetAll(old(games[..]))[j]
      invariant forall j :: i <= j < games.Length ==> games[j] == old(games[j])
    {
      games[i] := Reset(games[i]);
    }
  }

  /**
   * After "resetgame" no game runs, games that were not running are untouched, and a
   * marathon in shape stays in shape.
   */
  lemma ResetRunningFacts(gs: seq<Game>)
    ensures CurrentGame(ResetRunning(gs)).None?
    ensures forall i :: 0 <= i < |gs| && !IsRunning(gs[i]) ==> ResetRunning(gs)[i] == gs[i]
    ensures Shaped(gs) ==> Shaped(ResetRunning(gs))
  {
    var r := ResetRunning(gs);
    assert forall i :: 0 <= i < |gs| ==> !IsRunning(r[i]);
  }

  /**
   * After "resetmarathon" the marathon is in shape with no game running, the next step
   * starts its first game, and resetting again changes nothing.
   */
  lemma ResetAllFacts(gs: seq<Game>, now: int)
    ensures Shaped(ResetAll(gs))
    ensures CurrentGame(ResetAll(gs)).None?
    ensures gs != [] ==> FirstStartable(ResetAll(gs)) == 0
    ensures ResetAll(ResetAll(gs)) == ResetAll(gs)
  {
    var r := ResetAll(gs);
    assert forall i :: 0 <= i < |r| ==> Rank(r[i]) == 0 && !IsRunning(r[i]);
  }

  /** `renderStatus`. */
  function RenderStatus(status: Option<int>): (s: string)
    ensures s == "not started" || s == "running" || s == "finished" || s == "???"
    ensures s == "???" <==> status.Some? && status.value !in {NotStarted, Running, Finished}
  {
    if status.None? then "not started"
    else if status.value == NotStarted then "not started"
    else if status.value == Running then "running"
    else if status.value == Finished then "finished"
    else "???"
  }

  /**
   * A game's status renders as "not started" exactly when the scan may start it, as
   * "running" exactly when it runs, as "finished" exactly when it is finished, and as
   * "???" exactly when its status is none of the three.
   */
  lemma RenderStatusOfGame(g: Game)
    ensures RenderStatus(g.status) == "not started" <==> Startable(g)
    ensures RenderStatus(g.status) == "running" <==> IsRunning(g)
    ensures RenderStatus(g.status) == "finished" <==> IsFinished(g)
    ensures RenderStatus(g.status) == "???" <==> !Known(g)
  {
  }

  const Second := 1_000_000_000
  const Minute := 60_000_000_000
  const Hour := 3_600_000_000_000

  /** Go's integer division, which truncates toward zero. */
  function Quot(a: int, b: int): (q: int)
    requires b > 0
    ensures a >= 0 ==> q == a / b
    ensures a >= 0 ==> 0 <= q && q * b <= a < q * b + b
    ensures a < 0 ==> q <= 0 && a <= q * b < a + b
  {
    if a >= 0 then DivBounds(a, b); a / b
    else DivBounds(-a, b); NegatedBounds(a, b, (-a) / b); -((-a) / b)
  }

  /** Euclidean division of a non-negative number leaves a remainder in [0, b). */
  lemma DivBounds(m: int, b: int)
    requires m >= 0 && b > 0
    ensures 0 <= m / b && (m / b) * b <= m < (m / b) * b + b
  {
    assert m == (m / b) * b + m % b;
  }

  /** Negating the dividend and the quotient turns [k*b, k*b + b) into (a, a + b]. */
  lemma NegatedBounds(a: int, b: int, k: int)
    requires a < 0 && b > 0 && 0 <= k && k * b <= -a < k * b + b
    ensures -k <= 0 && a <= (-k) * b < a + b
  {
    assert (-k) * b == -(k * b);
  }

  /** Go's remainder, which takes the sign of the dividend. */
  function Rem(a: int, b: int): (r: int)
    requires b > 0
    ensures a == Quot(a, b) * b + r
    ensures a >= 0 ==> r == a % b && 0 <= r < b
    ensures a < 0 ==> -b < r <= 0
  {
    a - Quot(a, b) * b
  }

  /**
   * `%01d:%02d:%02d` of a duration cut into hours, minutes and seconds the way
   * `Duration.Truncate` cuts it (toward zero).
   */
  function Clock(d: int): string {
    var h := Quot(d, Hour);
    var r := Rem(d, Hour);
    Decimal(h) + ":" + Pad2(Quot(r, Minute)) + ":" + Pad2(Quot(Rem(r, Minute), Second))
  }

  /**
   * `renderTime`: "?:??:??" for a game that has not started, otherwise the clock of its
   * end time (or of `now`, the current time, while it has none) minus its start time.
   */
  function RenderTime(g: Game, now: int): (s: string)
    ensures s == "?:??:??" <==> g.startedTime.None?
  {
    if g.startedTime.None? then "?:??:??"
    else
      var d := (if g.endedTime.Some? then g.endedTime.value else now) - g.startedTime.value;
      ClockLeadsWithNumber(d);
      Clock(d)
  }

  /** A clock starts with the hours' sign or first digit, so it is never the not-started text. */
  lemma ClockLeadsWithNumber(d: int)
    ensures |Clock(d)| > 0 && Clock(d)[0] != '?'
  {
    var h := Quot(d, Hour);
    assert Clock(d)[0] == Decimal(h)[0];
  }

  lemma SmallMultiple(x: int, b: int)
    requires b > 0 && -b < x * b < b
    ensures x == 0
  {
  }

  /** Division is determined by any quotient and remainder that fit. */
  lemma DivUnique(d: int, b: int, q: int, r: int)
    requires b > 0 && 0 <= r < b && d == q * b + r
    ensures d / b == q && d % b == r
  {
    var q' := d / b;
    var r' := d % b;
    assert (q - q') * b == r' - r;
    SmallMultiple(q - q', b);
  }

  /** The whole seconds of a non-negative duration, from its hour, minute and second fields. */
  lemma SecondsOfFields(d: int)
    requires d >= 0
    ensures 0 <= d % Hour / Minute < 60 && 0 <= d % Hour % Minute / Second < 60
    ensures (d / Hour) * 3600 + (d % Hour / Minute) * 60 + (d % Hour % Minute / Second) == d / Second
  {
    var h := d / Hour;
    var r := d % Hour;
    var m := r / Minute;
    var r2 := r % Minute;
    var s := r2 / Second;
    var r3 := r2 % Second;
    assert h * Hour == (h * 3600) * Second;
    assert m * Minute == (m * 60) * Second;
    assert d == (h * 3600 + m * 60 + s) * Second + r3;
    DivUnique(d, Second, h * 3600 + m * 60 + s, r3);
  }

  /** For a non-negative duration the truncating division and remainder are Dafny's. */
  lemma ClockFields(d: int)
    requires d >= 0
    ensures Clock(d) == Decimal(d / Hour) + ":" + Pad2(d % Hour / Minute) + ":" + Pad2(d % Hour % Minute / Second)
  {
    var r := Rem(d, Hour);
    assert r == d % Hour;
    assert Rem(r, Minute) == d % Hour % Minute;
  }

  /** Where the fields sit in "H:MM:SS". */
  lemma ClockText(hs: string, ms: string, ss: string)
    requires |hs| >= 1 && |ms| == 2 && |ss| == 2
    ensures var c := hs + ":" + ms + ":" + ss;
      |c| >= 7 && c[|c| - 6] == ':' && c[|c| - 3] == ':'
      && c[..|c| - 6] == hs && c[|c| - 5..|c| - 3] == ms && c[|c| - 2..] == ss
  {
    var c := hs + ":" + ms + ":" + ss;
    assert c[..|c| - 6] == hs;
    assert c[|c| - 5..|c| - 3] == ms;
    assert c[|c| - 2..] == ss;
  }

  /**
   * For a duration that is not negative the clock is "H:MM:SS" with two-digit minutes and
   * seconds, and reading its three fields back gives the whole seconds of the duration.
   */
  lemma ClockRoundTrip(d: int)
    requires d >= 0
    ensures var c := Clock(d);
      |c| >= 7 && c[|c| - 6] == ':' && c[|c| - 3] == ':' &&
      ParseDecimal(c[..|c| - 6]) * 3600 + ParseDecimal(c[|c| - 5..|c| - 3]) * 60
        + ParseDecimal(c[|c| - 2..]) == d / Second
  {
    var h := d / Hour;
    var m := d % Hour / Minute;
    var s := d % Hour % Minute / Second;
    SecondsOfFields(d);
    ClockFields(d);
    Pad2TwoDigits(m);
    Pad2TwoDigits(s);
    NatDecimalRoundTrip(h);
    ClockText(Decimal(h), Pad2(m), Pad2(s));
  }

  /** A game that ran from 0 to one hour, one minute and five seconds renders as "1:01:05". */
  lemma RenderTimeExample(g: Game, now: int)
    requires g.startedTime == Some(0) && g.endedTime == Some(Hour + Minute + 5 * Second)
    ensures RenderTime(g, now) == "1:01:05"
  {
    var d := 3_665_000_000_000;
    assert Quot(d, Hour) == 1 && Rem(d, Hour) == 65_000_000_000;
    assert Quot(65_000_000_000, Minute) == 1 && Rem(65_000_000_000, Minute) == 5_000_000_000;
    assert Quot(5_000_000_000, Second) == 5;
    assert Clock(d) == Decimal(1) + ":" + Pad2(1) + ":" + Pad2(5);
  }

  /**
   * A negative duration (an end before the start) is cut toward zero, so minutes and
   * seconds carry their own minus signs: ninety seconds before the start is "0:-1:-30".
   */
  lemma ClockNegative()
    ensures Clock(-90_000_000_000) == "0:-1:-30"
  {
    var d := -90_000_000_000;
    assert Quot(d, Hour) == 0 && Rem(d, Hour) == d;
    assert Quot(d, Minute) == -1 && Rem(d, Minute) == -30_000_000_000;
    assert Quot(-30_000_000_000, Second) == -30;
    assert NatDecimal(30) == "30" by {
      assert NatDecimal(3) == "3";
    }
  }
}

/**
 * The game module: "!game" reports the channel's current game and "!setgame" (admin only)
 * changes it to its arguments joined by spaces. The older revision of the same handlers
 * takes an untyped context and refuses anything that is not a command context.
 */
module GameCommands {
  import opened Wrappers
  import opened Text
  import opened Twitch
  import opened Commands
  import opened Bot

  function GameResponse(game: string): string {
    "The game is " + game + "."
  }

  function SetGameResponse(game: string): string {
    "Game set to " + game + "."
  }

  /**
   * Each response carries the game between a fixed prefix and a final ".", so the game
   * can be read back from it, and the two responses can never be confused.
   */
  lemma ResponsesCarryTheGame(game: string, other: string)
    ensures var r := GameResponse(game); |r| == |game| + 13 && r[12..|r| - 1] == game
    ensures var r := SetGameResponse(game); |r| == |game| + 13 && r[12..|r| - 1] == game
    ensures GameResponse(game) != SetGameResponse(other)
  {
    assert GameResponse(game)[0] != SetGameResponse(other)[0];
  }

  /** `NewGameModule`: "game" at level 0 and "setgame" at level 10; a name already taken stays as it was. */
  method NewGameModule(b: Bot)
    modifies b.engine
    ensures b.engine.commands.Keys == old(b.engine.commands.Keys) + {"game", "setgame"}
    ensures "game" !in old(b.engine.commands) ==>
      b.engine.commands["game"] == Command("Lists the current game.", GameCmd, 0)
    ensures "setgame" !in old(b.engine.commands) ==>
      b.engine.commands["setgame"] == Command("Sets the current game.", SetGameCmd, 10)
    ensures forall name :: name in old(b.engine.commands) ==> b.engine.commands[name] == old(b.engine.commands[name])
  {
    var _ := b.AddCommand("game", "Lists the current game.", GameCmd, 0);
    var _ := b.AddCommand("setgame", "Sets the current game.", SetGameCmd, 10);
  }

  /** `gameCommand`: says the channel's game; a failed API request is returned and nothing is said. */
  method GameCommand(api: Api, irc: Irc, cc: CommandContext) returns (err: Outcome)
    modifies irc
    ensures api.channel.None? ==> err == Err(ApiError) && irc.said == old(irc.said)
    ensures api.channel.Some? ==>
      err == Ok && irc.said == old(irc.said) + [Line(cc.channel, GameResponse(api.channel.value.game))]
  {
    var channel := api.GetChannel();
    if channel.None? {
      return Err(ApiError);
    }
    irc.Say(cc.channel, GameResponse(channel.value.game));
    err := Ok;
  }

  /**
   * `setGameCommand`: sets the channel's game to the arguments joined by single spaces and
   * confirms it; a failed API request is returned and nothing is said.
   */
  method SetGameCommand(api: Api, irc: Irc, cc: CommandContext, args: seq<string>) returns (err: Outcome)
    modifies api, irc
    ensures api.channel == old(api.channel) && api.follows == old(api.follows) && api.setOk == old(api.setOk)
    ensures err.Ok? <==> api.channel.Some? && api.setOk
    ensures err.Err? ==> err == Err(ApiError) && irc.said == old(irc.said)
    ensures api.gameSets == old(api.gameSets) +
      if err.Ok? then [(api.channel.value.name, Join(args, " "))] else []
    ensures err.Ok? ==> irc.said == old(irc.said) + [Line(cc.channel, SetGameResponse(Join(args, " ")))]
  {
    var channel := api.GetChannel();
    if channel.None? {
      return Err(ApiError);
    }
    var game := Join(args, " ");
    var ok := api.SetChannelGame(channel.value.name, game);
    if !ok {
      return Err(ApiError);
    }
    irc.Say(cc.channel, SetGameResponse(game));
    err := Ok;
  }

  /** The older `gameCommand`: refuses a context that is not a command context, changing nothing. */
  method LegacyGameCommand(api: Api, irc: Irc, ctx: Ctx) returns (err: Outcome)
    modifies irc
    ensures ctx.Foreign? ==> err == Err(NotCommandContext) && irc.said == old(irc.said)
    ensures ctx.Chat? && api.channel.None? ==> err == Err(ApiError) && irc.said == old(irc.said)
    ensures ctx.Chat? && api.channel.Some? ==>
      err == Ok && irc.said == old(irc.said) + [Line(ctx.cc.channel, GameResponse(api.channel.value.game))]
  {
    if ctx.Foreign? {
      return Err(NotCommandContext);
    }
    err := GameCommand(api, irc, ctx.cc);
  }

  /** The older `setGameCommand`: refuses a context that is not a command context, changing nothing. */
  method LegacySetGameCommand(api: Api, irc: Irc, ctx: Ctx, args: seq<string>) returns (err: Outcome)
    modifies api, irc
    ensures api.channel == old(api.channel) && api.follows == old(api.follows) && api.setOk == old(api.setOk)
    ensures ctx.Foreign? ==>
      err == Err(NotCommandContext) && irc.said == old(irc.said) && api.gameSets == old(api.gameSets)
    ensures ctx.Chat? ==> (err.Ok? <==> api.channel.Some? && api.setOk)
    ensures ctx.Chat? && err.Err? ==> err == Err(ApiError) && irc.said == old(irc.said)
    ensures ctx.Chat? ==>
      (api.gameSets == old(api.gameSets) +
       if err.Ok? then [(api.channel.value.name, Join(args, " "))] else [])
    ensures ctx.Chat? && err.Ok? ==>
      irc.said == old(irc.said) + [Line(ctx.cc.channel, SetGameResponse(Join(args, " ")))]
  {
    if ctx.Foreign? {
      return Err(NotCommandContext);
    }
    err := SetGameCommand(api, irc, ctx.cc, args);
  }

  lemma JoinMegaMan()
    ensures Join(["Mega", "Man", "1"], " ") == "Mega Man 1"
    ensures Join(["setgame", "Mega", "Man", "1"], " ") == "setgame Mega Man 1"
  {
    assert Join(["1"], " ") == "1";
    assert ["Man", "1"][1..] == ["1"];
    assert Join(["Man", "1"], " ") == "Man 1";
    assert ["Mega", "Man", "1"][1..] == ["Man", "1"];
    assert ["setgame", "Mega", "Man", "1"][1..] == ["Mega", "Man", "1"];
  }

  /** The refusal text of cmd_game_test.go. */
  lemma LevelErrorText()
    ensures DispatchError(InsufficientLevel(0, 10)) == "user level 0 not >= 10."
  {
    assert NatDecimal(10) == NatDecimal(1) + [Digit(0)];
    assert Decimal(10) == "10";
    assert Decimal(0) == "0";
  }

  /** The words of "!setgame Mega Man 1". */
  lemma SetGameWords()
    ensures var ws := ["setgame", "Mega", "Man", "1"];
      "!" + Join(ws, " ") == "!setgame Mega Man 1" && ws[1..] == ["Mega", "Man", "1"]
      && forall i :: 0 <= i < |ws| ==> IsWord(ws[i])
  {
    JoinMegaMan();
    var ws := ["setgame", "Mega", "Man", "1"];
    assert forall i :: 0 <= i < |ws| ==> IsWord(ws[i]);
  }

  /** "!setgame Mega Man 1" from anyone but the admin is refused at level 0. */
  lemma SetGameRefused(cfg: Config, commands: map<string, Command>, username: string)
    requires username != cfg.adminUser
    requires "setgame" in commands && commands["setgame"].handler == SetGameCmd && commands["setgame"].level == 10
    ensures HandleMessage(cfg, commands, username, "!setgame Mega Man 1") == Some(InsufficientLevel(0, 10))
  {
    SetGameWords();
    CommandLine(cfg, commands, username, ["setgame", "Mega", "Man", "1"]);
  }

  /** "!setgame Mega Man 1" from the admin runs setgame with the three words. */
  lemma SetGameRuns(cfg: Config, commands: map<string, Command>)
    requires "setgame" in commands && commands["setgame"].handler == SetGameCmd && commands["setgame"].level == 10
    ensures HandleMessage(cfg, commands, cfg.adminUser, "!setgame Mega Man 1") ==
      Some(Invoke(SetGameCmd, ["Mega", "Man", "1"]))
  {
    SetGameWords();
    CommandLine(cfg, commands, cfg.adminUser, ["setgame", "Mega", "Man", "1"]);
  }

  /** The confirmation of cmd_game_test.go. */
  lemma SetGameConfirmation()
    ensures SetGameResponse(Join(["Mega", "Man", "1"], " ")) == "Game set to Mega Man 1."
  {
    JoinMegaMan();
  }

  /**
   * The exchange cmd_game_test.go checks, for any configuration whose admin is "rock":
   * "!setgame Mega Man 1" from "rush" is refused with "user level 0 not >= 10.", and from
   * "rock" runs setgame with the game "Mega Man 1", confirmed as "Game set to Mega Man 1.".
   */
  lemma SetGameExchange(cfg: Config, commands: map<string, Command>)
    requires cfg.adminUser == "rock"
    requires "setgame" in commands && commands["setgame"].handler == SetGameCmd && commands["setgame"].level == 10
    ensures var d := HandleMessage(cfg, commands, "rush", "!setgame Mega Man 1");
      d.Some? && !d.value.Invoke? && DispatchError(d.value) == "user level 0 not >= 10."
    ensures HandleMessage(cfg, commands, "rock", "!setgame Mega Man 1") ==
      Some(Invoke(SetGameCmd, ["Mega", "Man", "1"]))
    ensures SetGameResponse(Join(["Mega", "Man", "1"], " ")) == "Game set to Mega Man 1."
  {
    SetGameRefused(cfg, commands, "rush");
    LevelErrorText();
    SetGameRuns(cfg, commands);
    SetGameConfirmation();
  }
}

/**
 * The command registry the bot and the marathon module dispatch through. Its engine is an
 * outside library; only the behaviour the bot relies on is modelled: a command line is split
 * at white space, the first field names the command, the remaining fields are its arguments,
 * and a caller whose user level is below the command's level is refused.
 */
module Commands {
  import opened Wrappers
  import opened Text

  /** The command handlers of the bot's modules, by name. */
  datatype Handler =
    | GameCmd
    | SetGameCmd
    | GiveawayCmd
    | MarathonCmd
    | MarathonNext
    | MarathonResetGame
    | MarathonResetMarathon
    | SimpleCmd(id: int)
    | External(name: string)

  datatype Command = Command(help: string, handler: Handler, level: int)

  /** What executing a command line leads to. */
  datatype Dispatch =
    | Invoke(handler: Handler, args: seq<string>)
    | NoCommand
    | UnknownCommand(name: string)
    | InsufficientLevel(level: int, required: int)

  /** The error a refused command line produces. */
  function DispatchError(d: Dispatch): (msg: string)
    requires !d.Invoke?
  {
    match d
    case NoCommand => "no command"
    case UnknownCommand(name) => "unknown command " + name
    case InsufficientLevel(level, required) =>
      "user level " + Decimal(level) + " not >= " + Decimal(required) + "."
  }

  /** `Exec(ctx, level, args)`: the command `args[0]` with arguments `args[1..]`. */
  function Exec(commands: map<string, Command>, level: int, args: seq<string>): (d: Dispatch)
    ensures d.Invoke? <==>
      args != [] && args[0] in commands && level >= commands[args[0]].level
    ensures d.Invoke? ==> d.handler == commands[args[0]].handler && d.args == args[1..]
    ensures d.InsufficientLevel? ==>
      (args != [] && args[0] in commands && d.level == level
       && d.required == commands[args[0]].level > level)
  {
    if args == [] then NoCommand
    else if args[0] !in commands then UnknownCommand(args[0])
    else if level < commands[args[0]].level then InsufficientLevel(level, commands[args[0]].level)
    else Invoke(commands[args[0]].handler, args[1..])
  }

  /** `ExecString(ctx, level, line)`: the line split into white-space separated fields. */
  function ExecString(commands: map<string, Command>, level: int, line: string): Dispatch {
    Exec(commands, level, Fields(line))
  }

  /**
   * A line made of words joined by single spaces runs the command the first word names,
   * with the other words as its arguments, exactly when the caller's level reaches the
   * command's level.
   */
  lemma ExecStringWords(commands: map<string, Command>, level: int, ws: seq<string>)
    requires ws != [] && forall i :: 0 <= i < |ws| ==> IsWord(ws[i])
    requires ws[0] in commands
    ensures level >= commands[ws[0]].level ==>
      ExecString(commands, level, Join(ws, " ")) == Invoke(commands[ws[0]].handler, ws[1..])
    ensures level < commands[ws[0]].level ==>
      ExecString(commands, level, Join(ws, " ")) == InsufficientLevel(level, commands[ws[0]].level)
  {
    FieldsOfJoin(ws);
  }

  /** A registry of named commands (`CmdEngine`). */
  class CmdEngine {
    var commands: map<string, Command>

    constructor ()
      ensures commands == map[]
    {
      commands := map[];
    }

    /** Registers a command; a name that is already taken keeps its command. */
    method AddCommand(name: string, help: string, handler: Handler, level: int) returns (err: Outcome)
      modifies this
      ensures err.Ok? <==> name !in old(commands)
      ensures commands == if err.Ok? then old(commands)[name := Command(help, handler, level)]
        else old(commands)
    {
      if name in commands {
        return Err("command " + name + " already registered");
      }
      commands := commands[name := Command(help, handler, level)];
      err := Ok;
    }

    /** Unregisters the command of that name, if any. */
    method RemoveCommand(name: string)
      modifies this
      ensures commands == old(commands) - {name}
    {
      commands := commands - {name};
    }
  }
}

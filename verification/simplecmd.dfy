/**
 * The simple command module: stored (command, response) pairs, each registered with the
 * bot as a level-0 command that answers with the response it reads back from the store
 * by record ID. The RPC service keeps the registry in step with the store: a new record
 * registers its command, a deleted one unregisters it.
 */
module SimpleCommands {
  import opened Wrappers
  import opened Twitch
  import opened Commands
  import opened Storage
  import opened Bot
  import Rpc

  /** `SimpleCommand`, without its ID (the store key). */
  datatype SimpleCommand = SimpleCommand(command: string, response: string)

  const SimpleHelp := "Simple Command"

  /** The registry after `activateCommand` for the record `id`: its name, unless taken. */
  function Activate(commands: map<string, Command>, name: string, id: int): (r: map<string, Command>)
    ensures r.Keys == commands.Keys + {name}
    ensures name !in commands ==> r[name] == Command(SimpleHelp, SimpleCmd(id), 0)
    ensures forall n :: n in commands ==> r[n] == commands[n]
  {
    if name in commands then commands else commands[name := Command(SimpleHelp, SimpleCmd(id), 0)]
  }

  /** The registry after activating every listed record in order, each bound to its own ID. */
  function Activations(cmds: seq<Entry<SimpleCommand>>, commands: map<string, Command>): map<string, Command>
    decreases |cmds|
  {
    if cmds == [] then commands
    else
      var last := cmds[|cmds| - 1];
      Activate(Activations(cmds[..|cmds| - 1], commands), last.rec.command, last.id)
  }

  /** The names of the listed records. */
  function Names(cmds: seq<Entry<SimpleCommand>>): set<string> {
    set i | 0 <= i < |cmds| :: cmds[i].rec.command
  }

  lemma NamesSnoc(cmds: seq<Entry<SimpleCommand>>)
    requires cmds != []
    ensures Names(cmds) == Names(cmds[..|cmds| - 1]) + {cmds[|cmds| - 1].rec.command}
  {
    var init := cmds[..|cmds| - 1];
    forall n | n in Names(cmds) ensures n in Names(init) + {cmds[|cmds| - 1].rec.command} {
      var i :| 0 <= i < |cmds| && cmds[i].rec.command == n;
      if i < |cmds| - 1 {
        assert init[i] == cmds[i];
      }
    }
    forall n | n in Names(init) ensures n in Names(cmds) {
      var i :| 0 <= i < |init| && init[i].rec.command == n;
      assert cmds[i] == init[i];
    }
  }

  /** Start-up registration adds exactly the listed names and keeps every command registered before. */
  lemma {:induction false} ActivationsKeys(cmds: seq<Entry<SimpleCommand>>, commands: map<string, Command>)
    ensures Activations(cmds, commands).Keys == commands.Keys + Names(cmds)
    ensures forall n :: n in commands ==> Activations(cmds, commands)[n] == commands[n]
    decreases |cmds|
  {
    if cmds != [] {
      ActivationsKeys(cmds[..|cmds| - 1], commands);
      NamesSnoc(cmds);
    } else {
      assert Names(cmds) == {};
    }
  }

  /** Start-up registration binds each new name to the first listed record with that name. */
  lemma {:induction false} ActivationsBind(cmds: seq<Entry<SimpleCommand>>, commands: map<string, Command>, i: nat)
    requires i < |cmds| && cmds[i].rec.command !in commands
    requires forall j :: 0 <= j < i ==> cmds[j].rec.command != cmds[i].rec.command
    ensures cmds[i].rec.command in Activations(cmds, commands)
    ensures Activations(cmds, commands)[cmds[i].rec.command] == Command(SimpleHelp, SimpleCmd(cmds[i].id), 0)
    decreases |cmds|
  {
    var init := cmds[..|cmds| - 1];
    ActivationsKeys(init, commands);
    if i < |cmds| - 1 {
      assert init[i] == cmds[i];
      assert forall j :: 0 <= j < i ==> init[j] == cmds[j];
      ActivationsBind(init, commands, i);
    }
  }

  /**
   * The start-up registration as written: every handler closure holds a pointer to the one
   * loop variable, which after the loop holds the last record, so every name is bound to
   * the last listed record's ID (the names themselves are read at registration time).
   */
  function ActivationsAsWritten(cmds: seq<Entry<SimpleCommand>>, commands: map<string, Command>): map<string, Command> {
    if cmds == [] then commands
    else Rebind(Activations(cmds, commands), commands, cmds[|cmds| - 1].id)
  }

  /** Every command not in `before` rebound to the record `id`. */
  function Rebind(after: map<string, Command>, before: map<string, Command>, id: int): map<string, Command> {
    map n | n in after :: if n in before then after[n] else Command(SimpleHelp, SimpleCmd(id), 0)
  }

  /**
   * With records 1 ("a", "A") and 2 ("b", "B") stored, the code as written makes "!a" read
   * record 2 and answer "B"; bound to its own record, "!a" answers "A".
   */
  lemma CapturedLoopVariable()
    ensures var cmds := [Entry(1, SimpleCommand("a", "A")), Entry(2, SimpleCommand("b", "B"))];
      ActivationsAsWritten(cmds, map[])["a"].handler == SimpleCmd(2)
      && Find(cmds, 2) == Some(SimpleCommand("b", "B"))
      && Activations(cmds, map[])["a"].handler == SimpleCmd(1)
      && Find(cmds, 1) == Some(SimpleCommand("a", "A"))
  {
    var cmds := [Entry(1, SimpleCommand("a", "A")), Entry(2, SimpleCommand("b", "B"))];
    assert cmds[..1][..0] == [];
    assert cmds[..1] == [Entry(1, SimpleCommand("a", "A"))];
    var first := Activate(map[], "a", 1);
    assert Activations(cmds[..1], map[]) == first;
    assert Activations(cmds, map[]) == Activate(first, "b", 2);
  }

  /** `activateCommand`: registers the record's name at level 0, bound to the record's ID. */
  method ActivateCommand(b: Bot, id: int, cmd: SimpleCommand)
    modifies b.engine
    ensures b.engine.commands == Activate(old(b.engine.commands), cmd.command, id)
  {
    var _ := b.AddCommand(cmd.command, SimpleHelp, SimpleCmd(id), 0);
  }

  /** `deactivateCommand`: unregisters the record's name. */
  method DeactivateCommand(b: Bot, cmd: SimpleCommand)
    modifies b.engine
    ensures b.engine.commands == old(b.engine.commands) - {cmd.command}
  {
    b.engine.RemoveCommand(cmd.command);
  }

  /**
   * `NewSimpleCommandModule`: registers every stored record, each bound to its own ID; a
   * failed listing is ignored and registers nothing.
   */
  method NewSimpleCommandModule(b: Bot, store: Store<SimpleCommand>)
    modifies b.engine
    ensures b.engine.commands ==
      Activations(if store.readable then store.entries else [], old(b.engine.commands))
  {
    var listed := store.All();
    var cmds := if listed.Some? then listed.value else [];
    for i := 0 to |cmds|
      invariant b.engine.commands == Activations(cmds[..i], old(b.engine.commands))
    {
      assert cmds[..i + 1][..i] == cmds[..i];
      ActivateCommand(b, cmds[i].id, cmds[i].rec);
    }
    assert cmds[..|cmds|] == cmds;
  }

  /** `simpleCommand`: says the response of the record `id`; a failed lookup says nothing. */
  method SimpleCommandRun(store: Store<SimpleCommand>, irc: Irc, cc: CommandContext, id: int) returns (err: Outcome)
    modifies irc
    ensures err.Ok? <==> store.readable && Find(store.entries, id).Some?
    ensures err.Err? ==> err == Err(StoreError) && irc.said == old(irc.said)
    ensures err.Ok? ==> irc.said == old(irc.said) + [Line(cc.channel, Find(store.entries, id).value.response)]
  {
    var e, cmd := Rpc.Get(store, id);
    if e.Err? {
      return e;
    }
    irc.Say(cc.channel, cmd.value.response);
    err := Ok;
  }

  /** In an ID-ordered listing, looking up a listed record's ID finds that record. */
  lemma FindListed(s: seq<Entry<SimpleCommand>>, i: nat)
    requires Ascending(s) && i < |s|
    ensures Find(s, s[i].id) == Some(s[i].rec)
  {
  }

  /**
   * A command registered at start-up for the first record with its name answers with that
   * record's response, for as long as the store is readable and the record unchanged.
   */
  lemma StartupCommandAnswers(cmds: seq<Entry<SimpleCommand>>, commands: map<string, Command>, i: nat)
    requires Ascending(cmds) && i < |cmds|
    requires cmds[i].rec.command !in commands
    requires forall j :: 0 <= j < i ==> cmds[j].rec.command != cmds[i].rec.command
    ensures cmds[i].rec.command in Activations(cmds, commands)
    ensures var c := Activations(cmds, commands)[cmds[i].rec.command];
      c.level == 0 && c.handler.SimpleCmd? && Find(cmds, c.handler.id) == Some(cmds[i].rec)
  {
    ActivationsBind(cmds, commands, i);
    FindListed(cmds, i);
  }

  /**
   * `Update`: saves the record for an admin caller as the shared service does; a record
   * that had ID 0 and was saved registers its command under the new ID; a record saved
   * under its own ID, a failed save or a refused caller registers nothing.
   */
  method Update(b: Bot, store: Store<SimpleCommand>, r: Option<Request>, id: int, rec: SimpleCommand, reply0: int)
    returns (err: Outcome, reply: int)
    requires store.Valid()
    modifies store, b.engine
    ensures store.Valid()
    ensures store.readable == old(store.readable) && store.writable == old(store.writable)
    ensures !IsAdminRequest(b.cfg, r) ==>
      err == Err(Rpc.AccessDenied) && reply == reply0
      && store.entries == old(store.entries) && store.next == old(store.next)
    ensures IsAdminRequest(b.cfg, r) && !store.writable ==>
      err == Err(StoreError) && reply == -1
      && store.entries == old(store.entries) && store.next == old(store.next)
    ensures IsAdminRequest(b.cfg, r) && store.writable ==>
      err == Ok && reply == (if id == 0 then old(store.next) else id) && reply != 0
      && store.entries == Upsert(old(store.entries), reply, rec)
      && store.next == (if id == 0 then old(store.next) + 1 else old(store.next))
    ensures b.engine.commands ==
      if err.Ok? && id == 0 then Activate(old(b.engine.commands), rec.command, reply)
      else old(b.engine.commands)
  {
    var isNewCmd := id == 0;
    err, reply := Rpc.Update(store, b.cfg, r, id, rec, reply0);
    if err.Err? {
      return;
    }
    if isNewCmd {
      ActivateCommand(b, reply, rec);
    }
  }

  /** `New`: the record's ID is zeroed, so a successful save always registers its command. */
  method New(b: Bot, store: Store<SimpleCommand>, r: Option<Request>, rec: SimpleCommand, reply0: int)
    returns (err: Outcome, reply: int)
    requires store.Valid()
    modifies store, b.engine
    ensures store.Valid()
    ensures store.readable == old(store.readable) && store.writable == old(store.writable)
    ensures err.Ok? <==> IsAdminRequest(b.cfg, r) && store.writable
    ensures err.Ok? ==>
      reply == old(store.next) && store.entries == Upsert(old(store.entries), reply, rec)
      && store.next == old(store.next) + 1
      && b.engine.commands == Activate(old(b.engine.commands), rec.command, reply)
    ensures err.Err? ==>
      store.entries == old(store.entries) && store.next == old(store.next)
      && b.engine.commands == old(b.engine.commands)
  {
    err, reply := Update(b, store, r, 0, rec, reply0);
  }

  /** `Get`: a read-only lookup, for any caller. */
  method Get(store: Store<SimpleCommand>, id: int) returns (err: Outcome, rec: Option<SimpleCommand>)
    ensures err.Ok? <==> store.readable && Find(store.entries, id).Some?
    ensures err.Ok? ==> rec == Find(store.entries, id)
  {
    err, rec := Rpc.Get(store, id);
  }

  /** `All`: every record in ID order, for any caller; a failed read is returned. */
  method All(store: Store<SimpleCommand>) returns (err: Outcome, cmds: seq<Entry<SimpleCommand>>)
    ensures err.Ok? <==> store.readable
    ensures err.Ok? ==> cmds == store.entries
    ensures err.Err? ==> err == Err(StoreError) && cmds == []
  {
    var listed := store.All();
    if listed.None? {
      return Err(StoreError), [];
    }
    return Ok, listed.value;
  }

  /**
   * `Del`, for any caller: a record that cannot be read is an error and nothing changes;
   * otherwise its command is unregistered first and the record deleted, and the reply is
   * set to the ID only when the delete succeeds (when it fails the command stays
   * unregistered).
   */
  method Del(b: Bot, store: Store<SimpleCommand>, id: int, ret0: int) returns (err: Outcome, ret: int)
    requires store.Valid()
    modifies store, b.engine
    ensures store.Valid() && store.next == old(store.next)
    ensures var found := if old(store.readable) then Find(old(store.entries), id) else None;
      if found.None? then
        err == Err(StoreError) && ret == ret0
        && store.entries == old(store.entries) && b.engine.commands == old(b.engine.commands)
      else
        b.engine.commands == old(b.engine.commands) - {found.value.command}
        && (err.Ok? <==> store.writable)
        && (err.Ok? ==> ret == id && store.entries == Remove(old(store.entries), id))
        && (err.Err? ==> err == Err(StoreError) && ret == ret0 && store.entries == old(store.entries))
  {
    ret := ret0;
    var e, cmd := Rpc.Get(store, id);
    if e.Err? {
      return e, ret;
    }
    DeactivateCommand(b, cmd.value);
    var ok := store.Delete(id);
    if !ok {
      return Err(StoreError), ret;
    }
    return Ok, id;
  }
}

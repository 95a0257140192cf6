/**
 * The slash-command registry: named commands in a map, one optional default
 * command for everything else, dispatch with an admin gate, and `/help`,
 * which lists the commands the caller may run.
 */
module Commands {
  import opened Wrappers
  import opened Text

  /**
   * A registered command. What it does when executed is not part of this
   * model: `handler` only tells commands apart.
   */
  datatype Command = Command(name: string, adminOnly: bool, handler: nat)

  /** What Dispatch did. */
  datatype Outcome =
    | Ran(cmd: Command)          // the command (or the default) was executed
    | Denied(reply: string)      // an admin-only command asked for by a non-admin
    | NotHandled                 // unknown name and no default command

  const PermissionReply: string := "You don't have permission to perform this action."

  class Registry {
    var commands: map<string, Command>
    var defaultCommand: Option<Command>

    /** Every entry is filed under its own name, which is never empty. */
    ghost predicate Valid()
      reads this
    {
      forall n :: n in commands ==> n != "" && commands[n].name == n
    }

    constructor ()
      ensures Valid()
      ensures commands == map[] && defaultCommand == None
    {
      commands := map[];
      defaultCommand := None;
    }

    /** An empty name makes `cmd` the default; any other name files (or replaces) it in the map. */
    method Register(cmd: Command)
      requires Valid()
      modifies this
      ensures Valid()
      ensures cmd.name == "" ==> commands == old(commands) && defaultCommand == Some(cmd)
      ensures cmd.name != "" ==> commands == old(commands)[cmd.name := cmd] && defaultCommand == old(defaultCommand)
    {
      if cmd.name == "" {
        defaultCommand := Some(cmd);
        return;
      }
      commands := commands[cmd.name := cmd];
    }

    /** The command registered under `name`, if any (the default is never found here). */
    method Get(name: string) returns (cmd: Option<Command>)
      requires Valid()
      ensures cmd.Some? <==> name in commands
      ensures cmd.Some? ==> cmd.value == commands[name] && cmd.value.name == name && name != ""
    {
      if name in commands {
        cmd := Some(commands[name]);
      } else {
        cmd := None;
      }
    }

    /**
     * Route the command `name`: an unknown name runs the default command, if
     * there is one; a known admin-only command from a non-admin gets the one
     * permission reply and is not executed; otherwise the command runs.
     * `handled` is what Dispatch returns.
     */
    method Dispatch(name: string, isAdmin: bool) returns (handled: bool, outcome: Outcome)
      ensures handled <==> !outcome.NotHandled?
      ensures outcome.NotHandled? <==> name !in commands && defaultCommand.None?
      ensures outcome.Denied? <==> name in commands && commands[name].adminOnly && !isAdmin
      ensures outcome.Denied? ==> outcome.reply == PermissionReply
      ensures outcome.Ran? && name in commands ==> outcome.cmd == commands[name]
      ensures outcome.Ran? && name !in commands ==> defaultCommand == Some(outcome.cmd)
      ensures outcome.Ran? && outcome.cmd.adminOnly && name in commands ==> isAdmin
    {
      if name !in commands {
        if defaultCommand.Some? {
          return true, Ran(defaultCommand.value);
        }
        return false, NotHandled;
      }
      var cmd := commands[name];
      if cmd.adminOnly && !isAdmin {
        return true, Denied(PermissionReply);
      }
      return true, Ran(cmd);
    }

    /**
     * Every named command once, in an unspecified order (Go map iteration);
     * the default command is not among them.
     */
    method All() returns (cmds: seq<Command>)
      requires Valid()
      ensures |cmds| == |commands|
      ensures forall i :: 0 <= i < |cmds| ==> cmds[i].name in commands && commands[cmds[i].name] == cmds[i]
      ensures forall i :: 0 <= i < |cmds| ==> cmds[i].name != ""
      ensures forall n :: n in commands ==> commands[n] in cmds
      ensures forall i, j :: 0 <= i < j < |cmds| ==> cmds[i].name != cmds[j].name
    {
      cmds := [];
      var remaining := commands.Keys;
      while remaining != {}
        invariant remaining <= commands.Keys
        invariant |cmds| + |remaining| == |commands.Keys|
        invariant forall i :: 0 <= i < |cmds| ==>
          cmds[i].name in commands && cmds[i].name !in remaining && commands[cmds[i].name] == cmds[i]
        invariant forall n :: n in commands && n !in remaining ==> commands[n] in cmds
        invariant forall i, j :: 0 <= i < j < |cmds| ==> cmds[i].name != cmds[j].name
        decreases |remaining|
      {
        var n :| n in remaining;
        cmds := cmds + [commands[n]];
        remaining := remaining - {n};
      }
    }
  }

  /** The names `/help` shows, in listing order: named commands the caller may run. */
  function Visible(cmds: seq<Command>, isAdmin: bool): (r: seq<string>)
    ensures forall k :: 0 <= k < |r| ==> r[k] != ""
  {
    if cmds == [] then []
    else
      var c := cmds[|cmds| - 1];
      Visible(cmds[..|cmds| - 1], isAdmin) + (if (c.adminOnly && !isAdmin) || c.name == "" then [] else [c.name])
  }

  /** A name is shown iff some listed command has it, is named, and the caller may run it. */
  lemma {:induction false} VisibleMembers(cmds: seq<Command>, isAdmin: bool, n: string)
    ensures n in Visible(cmds, isAdmin) <==>
      exists i :: 0 <= i < |cmds| && cmds[i].name == n && n != "" && (!cmds[i].adminOnly || isAdmin)
  {
    if cmds != [] {
      var init := cmds[..|cmds| - 1];
      VisibleMembers(init, isAdmin, n);
      if n in Visible(init, isAdmin) {
        var i :| 0 <= i < |init| && init[i].name == n && n != "" && (!init[i].adminOnly || isAdmin);
        assert cmds[i] == init[i];
      }
      if exists i :: 0 <= i < |cmds| && cmds[i].name == n && n != "" && (!cmds[i].adminOnly || isAdmin) {
        var i :| 0 <= i < |cmds| && cmds[i].name == n && n != "" && (!cmds[i].adminOnly || isAdmin);
        if i < |init| {
          assert init[i] == cmds[i];
        }
      }
    }
  }

  /** Commands with distinct names are shown at most once each. */
  lemma {:induction false} VisibleDistinct(cmds: seq<Command>, isAdmin: bool)
    requires forall i, j :: 0 <= i < j < |cmds| ==> cmds[i].name != cmds[j].name
    ensures Distinct(Visible(cmds, isAdmin))
  {
    if cmds != [] {
      var init := cmds[..|cmds| - 1];
      var c := cmds[|cmds| - 1];
      VisibleDistinct(init, isAdmin);
      var prev := Visible(init, isAdmin);
      if (c.adminOnly && !isAdmin) || c.name == "" {
        assert Visible(cmds, isAdmin) == prev;
      } else {
        assert Visible(cmds, isAdmin) == prev + [c.name];
        VisibleMembers(init, isAdmin, c.name);
        assert forall i :: 0 <= i < |init| ==> init[i].name == cmds[i].name != c.name;
      }
    }
  }

  /** The loop of `/help` over a command listing. */
  method VisibleNames(cmds: seq<Command>, isAdmin: bool) returns (names: seq<string>)
    ensures names == Visible(cmds, isAdmin)
  {
    names := [];
    for k := 0 to |cmds|
      invariant names == Visible(cmds[..k], isAdmin)
    {
      assert cmds[..k + 1][..k] == cmds[..k];
      var cmd := cmds[k];
      if cmd.adminOnly && !isAdmin {
        continue;
      }
      if cmd.name != "" {
        names := names + [cmd.name];
      }
    }
    assert cmds[..|cmds|] == cmds;
  }

  /**
   * `/help`: one reply listing exactly the registered commands the caller may
   * run, each once; a non-admin never sees an admin-only command.
   */
  method Help(registry: Registry, isAdmin: bool) returns (names: seq<string>, reply: string)
    requires registry.Valid()
    ensures forall n :: n in names <==>
      n in registry.commands && (!registry.commands[n].adminOnly || isAdmin)
    ensures Distinct(names)
    ensures reply == "Supported commands: " + Join(names, ", ")
  {
    var cmds := registry.All();
    names := VisibleNames(cmds, isAdmin);
    VisibleDistinct(cmds, isAdmin);
    forall n
      ensures n in names <==> n in registry.commands && (!registry.commands[n].adminOnly || isAdmin)
    {
      VisibleMembers(cmds, isAdmin, n);
      if n in registry.commands {
        assert registry.commands[n] in cmds;
      }
    }
    reply := "Supported commands: " + Join(names, ", ");
  }
}

/**
 * `/admins`: list, add and remove the hostmasks in the bot's admin list,
 * which the command updates in place in the running configuration. A
 * successful add or remove also clears the caller's session.
 */
module AdminCommand {
  import opened Text
  import opened ConfigFields
  import IrcParsing

  /** The list without its first `x` (slices.Delete at that index); unchanged if `x` is absent. */
  function WithoutFirst(xs: seq<string>, x: string): (r: seq<string>)
    ensures x in xs ==> |r| == |xs| - 1
    ensures x !in xs ==> r == xs
  {
    var i := IndexOfItem(xs, x);
    if i == -1 then xs else xs[..i] + xs[i + 1..]
  }

  /** Removing deletes exactly the first occurrence and keeps the order of the others. */
  lemma WithoutFirstKeepsOthers(xs: seq<string>, x: string)
    requires x in xs
    ensures multiset(WithoutFirst(xs, x)) == multiset(xs) - multiset{x}
    ensures exists i ::
      && 0 <= i < |xs| && xs[i] == x
      && (forall j :: 0 <= j < i ==> xs[j] != x)
      && WithoutFirst(xs, x) == xs[..i] + xs[i + 1..]
  {
    var i := IndexOfItem(xs, x);
    assert xs == xs[..i] + [x] + xs[i + 1..];
  }

  /** A list without duplicates loses its member entirely. */
  lemma WithoutFirstOfDistinct(xs: seq<string>, x: string)
    requires Distinct(xs)
    ensures x !in WithoutFirst(xs, x)
    ensures Distinct(WithoutFirst(xs, x))
  {
    if x in xs {
      var i := IndexOfItem(xs, x);
      var r := WithoutFirst(xs, x);
      assert forall k :: 0 <= k < |r| ==> r[k] == if k < i then xs[k] else xs[k + 1];
    }
  }

  /** Adding a new hostmask and removing it again gives back the list. */
  lemma AddThenRemove(xs: seq<string>, x: string)
    requires x !in xs
    ensures WithoutFirst(xs + [x], x) == xs
  {
    assert forall k :: 0 <= k < |xs| ==> (xs + [x])[k] != x;
  }

  /** An added hostmask passes the admin check; removing the last admin opens every admin command to everyone. */
  lemma AdminCheckAfterChange(xs: seq<string>, x: string, anyone: string)
    ensures IrcParsing.CheckAdmin(x, xs + [x])
    ensures xs == [x] ==> IrcParsing.CheckAdmin(anyone, WithoutFirst(xs, x))
  {
    assert (xs + [x])[|xs|] == x;
    if xs == [x] {
      assert IndexOfItem(xs, x) == 0;
    }
  }

  const ListUsage: string := "Usage: /admins <add|remove> <hostmask>"

  /** The reply of `/admins` and `/admins list`. */
  function ListReply(admins: seq<string>): (r: string)
    ensures admins == [] <==> r == "No admins configured"
  {
    if |admins| == 0 then "No admins configured"
    else
      var r := "Admins: " + Join(admins, ", ");
      assert r[0] != "No admins configured"[0];
      r
  }

  /** The hostmask argument: everything after the subcommand, joined by spaces. */
  function Hostmask(args: seq<string>): string
    requires |args| >= 3
  {
    Join(args[2..], " ")
  }

  /** Everything but the admin list is left as it was. */
  twostate predicate OnlyAdminsChanged(cfg: Configuration)
    reads cfg
  {
    && cfg.model == old(cfg.model) && cfg.api == old(cfg.api) && cfg.session == old(cfg.session)
    && cfg.bot == old(cfg.bot).(admins := cfg.bot.admins)
  }

  /** Append `hostmask` unless it is empty or already an admin. */
  method AddAdmin(cfg: Configuration, hostmask: string) returns (reply: string, cleared: bool)
    modifies cfg
    ensures OnlyAdminsChanged(cfg)
    ensures hostmask == "" ==> reply == "Usage: /admins add <hostmask>" && !cleared
    ensures hostmask != "" && hostmask in old(cfg.bot.admins) ==>
      reply == "Already an admin: " + hostmask && !cleared
    ensures hostmask != "" && hostmask !in old(cfg.bot.admins) ==>
      reply == "Added admin: " + hostmask && cleared
    ensures cfg.bot.admins == if cleared then old(cfg.bot.admins) + [hostmask] else old(cfg.bot.admins)
  {
    if hostmask == "" {
      return "Usage: /admins add <hostmask>", false;
    }
    if hostmask in cfg.bot.admins {
      return "Already an admin: " + hostmask, false;
    }
    cfg.bot := cfg.bot.(admins := cfg.bot.admins + [hostmask]);
    return "Added admin: " + hostmask, true;
  }

  /** Delete the first entry equal to `hostmask`, if there is one. */
  method RemoveAdmin(cfg: Configuration, hostmask: string) returns (reply: string, cleared: bool)
    modifies cfg
    ensures OnlyAdminsChanged(cfg)
    ensures hostmask == "" ==> reply == "Usage: /admins remove <hostmask>" && !cleared
    ensures hostmask != "" && hostmask !in old(cfg.bot.admins) ==>
      reply == "Not an admin: " + hostmask && !cleared
    ensures hostmask != "" && hostmask in old(cfg.bot.admins) ==>
      reply == "Removed admin: " + hostmask && cleared
    ensures cfg.bot.admins == if cleared then WithoutFirst(old(cfg.bot.admins), hostmask) else old(cfg.bot.admins)
  {
    if hostmask == "" {
      return "Usage: /admins remove <hostmask>", false;
    }
    var idx := IndexOfItem(cfg.bot.admins, hostmask);
    if idx == -1 {
      return "Not an admin: " + hostmask, false;
    }
    cfg.bot := cfg.bot.(admins := cfg.bot.admins[..idx] + cfg.bot.admins[idx + 1..]);
    return "Removed admin: " + hostmask, true;
  }

  /**
   * `/admins [list|add|remove] <hostmask>`. Only the admin list can change,
   * and the session is cleared exactly when it did.
   */
  method Execute(cfg: Configuration, args: seq<string>) returns (reply: string, clearSession: bool)
    modifies cfg
    ensures OnlyAdminsChanged(cfg)
    ensures clearSession <==> cfg.bot.admins != old(cfg.bot.admins)
    ensures |args| < 2 || args[1] == "list" ==>
      reply == ListReply(old(cfg.bot.admins)) && !clearSession
    ensures |args| == 2 && args[1] != "list" ==> reply == ListUsage && !clearSession
    ensures |args| >= 3 && args[1] !in {"list", "add", "remove"} ==>
      reply == "Unknown subcommand: " + args[1] + ". Usage: /admins [list|add|remove] <hostmask>" && !clearSession
    ensures |args| >= 3 && args[1] == "add" ==> (
      && (Hostmask(args) == "" ==> reply == "Usage: /admins add <hostmask>")
      && (Hostmask(args) != "" && Hostmask(args) in old(cfg.bot.admins) ==>
            reply == "Already an admin: " + Hostmask(args))
      && (Hostmask(args) != "" && Hostmask(args) !in old(cfg.bot.admins) ==>
            reply == "Added admin: " + Hostmask(args))
      && (clearSession <==> Hostmask(args) != "" && Hostmask(args) !in old(cfg.bot.admins))
      && cfg.bot.admins == if clearSession then old(cfg.bot.admins) + [Hostmask(args)] else old(cfg.bot.admins))
    ensures |args| >= 3 && args[1] == "remove" ==> (
      && (Hostmask(args) == "" ==> reply == "Usage: /admins remove <hostmask>")
      && (Hostmask(args) != "" && Hostmask(args) !in old(cfg.bot.admins) ==>
            reply == "Not an admin: " + Hostmask(args))
      && (Hostmask(args) != "" && Hostmask(args) in old(cfg.bot.admins) ==>
            reply == "Removed admin: " + Hostmask(args))
      && (clearSession <==> Hostmask(args) != "" && Hostmask(args) in old(cfg.bot.admins))
      && cfg.bot.admins ==
           if clearSession then WithoutFirst(old(cfg.bot.admins), Hostmask(args)) else old(cfg.bot.admins))
  {
    if |args| < 2 || args[1] == "list" {
      return ListReply(cfg.bot.admins), false;
    }
    var subcommand := args[1];
    if |args| < 3 {
      return ListUsage, false;
    }
    var hostmask := Join(args[2..], " ");
    if subcommand == "add" {
      reply, clearSession := AddAdmin(cfg, hostmask);
      if clearSession {
        assert |cfg.bot.admins| == |old(cfg.bot.admins)| + 1;
      }
    } else if subcommand == "remove" {
      reply, clearSession := RemoveAdmin(cfg, hostmask);
      if clearSession {
        assert |cfg.bot.admins| == |old(cfg.bot.admins)| - 1;
      }
    } else {
      reply := "Unknown subcommand: " + subcommand + ". Usage: /admins [list|add|remove] <hostmask>";
      clearSession := false;
    }
  }
}

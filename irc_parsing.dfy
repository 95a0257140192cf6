/**
 * Message gating predicates of the IRC front end: is the bot addressed, is the
 * sender an admin, should the message be processed, is the target private.
 */
module IrcParsing {
  import opened Text

  /** Characters that may follow the bot's nick in an addressing message. */
  predicate IsNickSeparator(c: char) {
    c == ' ' || c == ':' || c == ','
  }

  /**
   * True when `message` addresses `botNick`: the nick, then the end of the
   * message or a separator. An empty nick addresses every message.
   */
  function CheckAddressed(message: string, botNick: string): (r: bool)
    ensures botNick == "" ==> r
    ensures r <==> botNick == "" || message == botNick
                   || exists sep :: IsNickSeparator(sep) && StartsWith(message, botNick + [sep])
  {
    if botNick == "" then true
    else if !StartsWith(message, botNick) then false
    else if |message| == |botNick| then true
    else
      var next := message[|botNick|];
      assert StartsWith(message, botNick + [next]);
      next == ' ' || next == ':' || next == ','
  }

  /** A nick that is only a prefix of the first word does not address the bot. */
  lemma {:induction false} LongerWordIsNotAddressed(botNick: string, c: char, rest: string)
    requires botNick != "" && !IsNickSeparator(c)
    ensures !CheckAddressed(botNick + [c] + rest, botNick)
  {
    var m := botNick + [c] + rest;
    assert m[|botNick|] == c;
    forall sep | IsNickSeparator(sep)
      ensures !StartsWith(m, botNick + [sep])
    {
      assert (botNick + [sep])[|botNick|] == sep;
    }
  }

  /** Linear membership search, as the loop over the admin list does it. */
  function Member(x: string, list: seq<string>): (r: bool)
    ensures r <==> x in list
  {
    if list == [] then false else list[0] == x || Member(x, list[1..])
  }

  /**
   * True when `hostmask` is in `adminList`; an empty list makes everybody an
   * admin.
   */
  function CheckAdmin(hostmask: string, adminList: seq<string>): (r: bool)
    ensures adminList == [] ==> r
    ensures adminList != [] ==> (r <==> exists i :: 0 <= i < |adminList| && adminList[i] == hostmask)
  {
    |adminList| == 0 || Member(hostmask, adminList)
  }

  /**
   * Whether a message is processed: it needs at least one argument, and the
   * bot must be addressed, or addressed mode be off, or the message private.
   */
  function CheckValid(isAddressed: bool, addressedMode: bool, isPrivate: bool, argCount: int): (r: bool)
    ensures argCount <= 0 ==> !r
    ensures argCount > 0 && isPrivate ==> r
    ensures argCount > 0 && !addressedMode ==> r
    ensures argCount > 0 && isAddressed ==> r
    ensures addressedMode && !isAddressed && !isPrivate ==> !r
  {
    (isAddressed || !addressedMode || isPrivate) && argCount > 0
  }

  /** True when `target` is not a channel name; the empty target counts as private. */
  function CheckPrivate(target: string): (r: bool)
    ensures r <==> target == [] || target[0] != '#'
  {
    !StartsWith(target, "#")
  }
}

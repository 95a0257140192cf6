/**
 * ReAct parsing: find the `Action:` line in a model reply and parse the name
 * of the action to run from it. Running the action itself is outside the model.
 */
module React {
  import opened Wrappers
  import opened Text

  const ActionMarker := "Action:"

  /** The pattern `(^|\n)Action:` matches at index `p`. */
  predicate ActionAt(msg: string, p: int) {
    (p == 0 && StartsWith(msg, ActionMarker))
    || (0 <= p < |msg| && msg[p] == '\n' && StartsWith(msg[p + 1..], ActionMarker))
  }

  /** Leftmost match of the pattern at or after `p`. */
  function FirstActionFrom(msg: string, p: nat): (r: int)
    requires p <= |msg|
    ensures r == -1 || p <= r < |msg|
    ensures r != -1 ==> ActionAt(msg, r)
    ensures forall q :: p <= q && (r == -1 || q < r) ==> !ActionAt(msg, q)
    decreases |msg| - p
  {
    if p == |msg| then -1
    else if ActionAt(msg, p) then p
    else FirstActionFrom(msg, p + 1)
  }

  /**
   * The message from the first `Action:` that starts it or starts a line, the
   * preceding newline included; the empty string when there is none.
   */
  function ReactFindActions(msg: string): (r: string)
    ensures |r| <= |msg|
    ensures r == "" <==> forall p :: !ActionAt(msg, p)
    ensures r != "" ==> var p := |msg| - |r|;
              r == msg[p..] && ActionAt(msg, p) && forall q :: 0 <= q < p ==> !ActionAt(msg, q)
  {
    var p := FirstActionFrom(msg, 0);
    if p == -1 then "" else msg[p..]
  }

  /** `Action:` in the middle of a one-line message is not found. */
  lemma MidLineActionIsIgnored(msg: string)
    requires '\n' !in msg && !StartsWith(msg, ActionMarker)
    ensures ReactFindActions(msg) == ""
  {
  }

  datatype ReactResult =
    | InvalidInput(input: string)        // no ": " in the message
    | ActionNotFound(action: string)     // the named action is not registered
    | Run(action: string, argument: string) // run `action` with everything after the first ": "

  /** `token` is the first space-separated field of `s`, as strings.Split(s, " ")[0]. */
  ghost predicate FirstToken(s: string, token: string) {
    ' ' !in token && (token == s || StartsWith(s, token + " "))
  }

  lemma FirstSplitField(s: string)
    ensures FirstToken(s, Split(s, ' ')[0])
  {
    var i := IndexOf(s, ' ');
    if i < |s| {
      assert s[..i + 1] == s[..i] + " ";
    }
  }

  /**
   * Parse a ReAct line `<label>: <action> <args>`: the action name is the
   * first space-separated token after the first ": ", trimmed; it must be one
   * of `actions`. The argument handed to the action is the whole text after
   * the first ": ".
   */
  function ParseReact(actions: set<string>, msg: string): (r: ReactResult)
    ensures r.InvalidInput? <==> !Contains(msg, ": ")
    ensures r.InvalidInput? ==> r.input == msg
    ensures Contains(msg, ": ") ==> var argument := ArgumentOf(msg);
              r.Run? ==> r.argument == argument
    ensures r.ActionNotFound? ==> r.action !in actions
    ensures r.Run? ==> r.action in actions
  {
    match Find(msg, ": ")
    case None => InvalidInput(msg)
    case Some(i) =>
      var argument := msg[i + 2..];
      var action := GoTrimSpace(Split(argument, ' ')[0]);
      if action in actions then Run(action, argument) else ActionNotFound(action)
  }

  /** The text after the first ": " of `msg`. */
  ghost function ArgumentOf(msg: string): (a: string)
    requires Contains(msg, ": ")
    ensures exists i :: IsAt(msg, ": ", i) && a == msg[i + 2..] && forall j :: 0 <= j < i ==> !IsAt(msg, ": ", j)
  {
    var i := Find(msg, ": ").value;
    msg[i + 2..]
  }

  /** The parsed action name is the trimmed first token of the argument. */
  lemma ParsedActionIsFirstToken(actions: set<string>, msg: string)
    requires Contains(msg, ": ")
    ensures var r := ParseReact(actions, msg);
            exists token :: FirstToken(ArgumentOf(msg), token) && r.action == GoTrimSpace(token)
  {
    var r := ParseReact(actions, msg);
    var argument := ArgumentOf(msg);
    FirstSplitField(argument);
    assert FirstToken(argument, Split(argument, ' ')[0]);
  }

  /** The canonical line `Action: <name> <args>` runs `name` when it is registered. */
  lemma {:induction false} ActionLineRuns(actions: set<string>, name: string, args: string)
    requires name in actions && name != [] && ' ' !in name && ':' !in name
    requires forall k :: 0 <= k < |name| ==> !GoSpace(name[k])
    requires args == [] || args[0] == ' '
    ensures ParseReact(actions, "Action: " + name + args) == Run(name, name + args)
  {
    var msg := "Action: " + name + args;
    var argument := name + args;
    assert Find(msg, ": ") == Some(6) by {
      assert msg[..8] == "Action: ";
      assert IsAt(msg, ": ", 6);
      forall j | 0 <= j < 6 ensures !IsAt(msg, ": ", j) {
        assert msg[j + 1] == "Action: "[j + 1] != ' ';
        assert msg[j..j + 2][1] == msg[j + 1];
      }
    }
    assert msg[8..] == argument;
    assert Split(argument, ' ')[0] == name by {
      assert IndexOf(argument, ' ') == |name| by {
        assert forall k :: 0 <= k < |name| ==> argument[k] == name[k] != ' ';
        assert args != [] ==> argument[|name|] == ' ';
      }
      assert argument[..|name|] == name;
    }
    assert GoTrimSpace(name) == name by {
      assert TrimLeftBy(name, GoSpace) == name;
      assert TrimRightBy(name, GoSpace) == name;
    }
  }
}

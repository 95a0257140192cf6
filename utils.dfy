/**
 * Reply helpers of the bot's entry package: word-based splitting of a long
 * reply into IRC lines, and the admin check against the configured nicks.
 */
module Utils {
  import opened Text
  import IrcParsing

  /** Spelling out a line with one more word appends that word to the joined text. */
  lemma ExtendKeepsJoin(lines: seq<string>, line: string, word: string)
    requires word != []
    ensures var joined := Join(NonEmpty(lines + [line]), " ");
            Join(NonEmpty(lines + [if line == [] then word else line + " " + word]), " ")
              == if joined == [] then word else joined + " " + word
  {
    var extended := if line == [] then word else line + " " + word;
    NonEmptySnoc(lines, line);
    NonEmptySnoc(lines, extended);
    var done := NonEmpty(lines);
    JoinSnoc(done, extended, " ");
    if line == [] {
      if done != [] {
        JoinOfNonEmptyParts(done, " ");
      }
    } else {
      JoinSnoc(done, line, " ");
    }
  }

  lemma JoinPrefixStep(words: seq<string>, i: nat)
    requires i < |words| && forall k :: 0 <= k < |words| ==> words[k] != []
    ensures var joined := Join(words[..i], " ");
            Join(words[..i + 1], " ") == if joined == [] then words[i] else joined + " " + words[i]
  {
    assert words[..i + 1] == words[..i] + [words[i]];
    JoinSnoc(words[..i], words[i], " ");
    if i > 0 {
      JoinOfNonEmptyParts(words[..i], " ");
    }
  }

  /** A line is within the limit, or it is one of the words. */
  predicate Fits(line: string, maxLineLength: int, words: seq<string>) {
    |line| <= maxLineLength || line in words
  }

  /**
   * The greedy placement of `words`, one word at a time: the lines emitted so
   * far and the line being built. A word that would take the line past the
   * limit (counting a space before it, even on an empty line) first emits
   * the line.
   */
  function Placed(words: seq<string>, maxLineLength: int): (seq<string>, string) {
    if words == [] then ([], "")
    else
      var (lines, current) := Placed(words[..|words| - 1], maxLineLength);
      var word := words[|words| - 1];
      if |current| + |word| + 1 > maxLineLength then (lines + [current], word)
      else if current == [] then (lines, word)
      else (lines, current + " " + word)
  }

  /** The lines of the greedy placement, the last one included when it is not empty. */
  function Wrapped(words: seq<string>, maxLineLength: int): seq<string> {
    var (lines, current) := Placed(words, maxLineLength);
    if current != [] then lines + [current] else lines
  }

  /**
   * Split a reply into lines of whole words. A word is added to the current
   * line unless the line, a space and the word would exceed `maxLineLength`,
   * in which case the current line is emitted first (the space is counted even
   * when the line is empty, so an over-long first word is preceded by an empty
   * line).
   */
  method SplitResponse(response: string, maxLineLength: int) returns (messages: seq<string>)
    ensures messages == Wrapped(GoFields(response), maxLineLength)
    ensures GoFields(response) == [] ==> messages == []
    ensures GoFields(response) != [] && |GoFields(response)[0]| + 1 > maxLineLength ==>
              |messages| >= 2 && messages[0] == []
    // Word order and content are kept: the non-empty lines spell out the words.
    ensures Join(NonEmpty(messages), " ") == Join(GoFields(response), " ")
    // A non-empty line is within the limit unless it is one over-long word.
    ensures forall k :: 0 <= k < |messages| && messages[k] != [] ==>
              |messages[k]| <= maxLineLength || messages[k] in GoFields(response)
    // Only the first line can be empty, and only when the first word does not fit.
    ensures forall k :: 0 <= k < |messages| && messages[k] == [] ==>
              k == 0 && |GoFields(response)[0]| + 1 > maxLineLength
  {
    messages := PlaceWords(GoFields(response), maxLineLength);
  }

  /** The loop of SplitResponse over the words of the reply. */
  method PlaceWords(words: seq<string>, maxLineLength: int) returns (messages: seq<string>)
    requires forall k :: 0 <= k < |words| ==> words[k] != []
    ensures messages == Wrapped(words, maxLineLength)
    ensures words == [] ==> messages == []
    ensures words != [] && |words[0]| + 1 > maxLineLength ==> |messages| >= 2 && messages[0] == []
    ensures Join(NonEmpty(messages), " ") == Join(words, " ")
    ensures forall k :: 0 <= k < |messages| && messages[k] != [] ==>
              |messages[k]| <= maxLineLength || messages[k] in words
    ensures forall k :: 0 <= k < |messages| && messages[k] == [] ==>
              k == 0 && |words[0]| + 1 > maxLineLength
  {
    messages := [];
    var currentLine := "";
    var i := 0;
    while i < |words|
      invariant SplitInv(words, maxLineLength, i, messages, currentLine)
      invariant (messages, currentLine) == Placed(words[..i], maxLineLength)
      invariant i > 0 && |words[0]| + 1 > maxLineLength ==> messages != [] && messages[0] == []
    {
      var word := words[i];
      ghost var done, next := SplitStep(words, maxLineLength, i, messages, currentLine);
      if |currentLine| + |word| + 1 > maxLineLength {
        messages := messages + [currentLine];
        currentLine := "";
      }
      if |currentLine| > 0 {
        currentLine := currentLine + " ";
      }
      currentLine := currentLine + word;
      assert messages == done && currentLine == next;
      i := i + 1;
    }
    if currentLine != "" {
      messages := messages + [currentLine];
    } else {
      NonEmptySnoc(messages, currentLine);
    }
    assert words[..i] == words;
  }

  /** What holds after `i` words have been placed. */
  ghost predicate SplitInv(words: seq<string>, maxLineLength: int, i: int, messages: seq<string>, currentLine: string) {
    && 0 <= i <= |words|
    && (forall k :: 0 <= k < |words| ==> words[k] != [])
    && (i == 0 ==> messages == [] && currentLine == [])
    && (i > 0 ==> currentLine != [])
    && Join(NonEmpty(messages + [currentLine]), " ") == Join(words[..i], " ")
    && (forall k :: 0 <= k < |messages| ==> messages[k] == [] || Fits(messages[k], maxLineLength, words))
    && (currentLine == [] || Fits(currentLine, maxLineLength, words))
    && (forall k :: 0 <= k < |messages| && messages[k] == [] ==> k == 0 && |words[0]| + 1 > maxLineLength)
  }

  /** Placing one more word, with or without emitting the current line first, keeps SplitInv. */
  lemma SplitStep(words: seq<string>, maxLineLength: int, i: int, messages: seq<string>, currentLine: string)
    returns (done: seq<string>, next: string)
    requires SplitInv(words, maxLineLength, i, messages, currentLine) && i < |words|
    requires (messages, currentLine) == Placed(words[..i], maxLineLength)
    ensures var emit := |currentLine| + |words[i]| + 1 > maxLineLength;
            var line := if emit then "" else currentLine;
            && done == (if emit then messages + [currentLine] else messages)
            && next == (if line == [] then words[i] else line + " " + words[i])
    ensures SplitInv(words, maxLineLength, i + 1, done, next)
    ensures (done, next) == Placed(words[..i + 1], maxLineLength)
  {
    var word := words[i];
    assert words[..i + 1][..i] == words[..i];
    var emit := |currentLine| + |word| + 1 > maxLineLength;
    done := if emit then messages + [currentLine] else messages;
    var line := if emit then "" else currentLine;
    next := if line == [] then word else line + " " + word;
    assert Join(NonEmpty(done + [next]), " ") == Join(words[..i + 1], " ") by {
      if emit {
        NonEmptySnoc(messages + [currentLine], "");
      }
      assert NonEmpty(done + [line]) == NonEmpty(messages + [currentLine]);
      ExtendKeepsJoin(done, line, word);
      JoinPrefixStep(words, i);
    }
    assert forall k :: 0 <= k < |done| ==> done[k] == [] || Fits(done[k], maxLineLength, words) by {
      if emit {
        assert forall k :: 0 <= k < |messages| ==> done[k] == messages[k];
      }
    }
    assert Fits(next, maxLineLength, words) by {
      if line == [] {
        assert next == words[i];
      }
    }
    assert forall k :: 0 <= k < |done| && done[k] == [] ==> k == 0 && |words[0]| + 1 > maxLineLength by {
      if emit {
        assert forall k :: 0 <= k < |messages| ==> done[k] == messages[k];
        if currentLine == [] {
          assert i == 0 && messages == [];
        }
      }
    }
  }

  /** White space only gives no words, hence no lines. */
  lemma {:induction false} BlankHasNoFields(s: string)
    requires forall k :: 0 <= k < |s| ==> GoSpace(s[k])
    ensures GoFields(s) == []
    decreases |s|
  {
    if s != [] {
      BlankHasNoFields(s[1..]);
    }
  }

  /**
   * The admin check against the configured nicks: an empty list admits
   * everybody, otherwise the nick must be listed exactly.
   */
  method IsAdmin(nick: string, admins: seq<string>) returns (r: bool)
    ensures r == IrcParsing.CheckAdmin(nick, admins)
    ensures r <==> admins == [] || nick in admins
  {
    if |admins| == 0 {
      return true;
    }
    var i := 0;
    while i < |admins|
      invariant 0 <= i <= |admins|
      invariant nick !in admins[..i]
    {
      if admins[i] == nick {
        return true;
      }
      i := i + 1;
    }
    assert admins[..i] == admins;
    return false;
  }
}

/**
 * Per-channel chat history kept in one append-only log file per channel,
 * one `timestamp|nick|message` line per message, and the query that reads
 * it back: newest first, filtered by time window and a case-insensitive
 * search, limited to the most recent matches or only counted.
 *
 * Files are modelled as a map from file name to contents. The clock that
 * stamps a new line and the RFC 3339 timestamp parser are parameters;
 * instants are integers and the zero time is `None`.
 */
module History {
  import opened Wrappers
  import opened Text

  /** The file name of a channel's log: every '/' becomes '_' (the base directory is left out). */
  function FilePath(channel: string): (r: string)
    ensures |r| == |channel| + 4 && EndsWith(r, ".log")
    ensures forall k :: 0 <= k < |channel| ==> r[k] == if channel[k] == '/' then '_' else channel[k]
  {
    seq(|channel|, k requires 0 <= k < |channel| => if channel[k] == '/' then '_' else channel[k]) + ".log"
  }

  /** Two channel names that differ only in '/' against '_' write to the same file. */
  lemma SlashAndUnderscoreShareFile()
    ensures FilePath("#a/b") == FilePath("#a_b") == "#a_b.log"
  {
  }

  /** The line Add writes, without its newline. */
  function Line(timestamp: string, nick: string, message: string): string {
    timestamp + "|" + nick + "|" + message
  }

  datatype Parts = Parts(timestamp: string, nick: string, message: string)

  /**
   * strings.SplitN(line, "|", 3) when it yields three parts: split at the
   * first two '|'; the message keeps any further '|'.
   */
  function SplitLine(line: string): Option<Parts> {
    var parts := Split(line, '|');
    if |parts| < 3 then None else Some(Parts(parts[0], parts[1], Join(parts[2..], "|")))
  }

  lemma JoinThree(parts: seq<string>, sep: string)
    requires |parts| >= 3
    ensures Join(parts, sep) == parts[0] + sep + parts[1] + sep + Join(parts[2..], sep)
  {
    assert parts[1..][1..] == parts[2..];
  }

  /** Three parts lose nothing of the line, and the first two hold no '|'. */
  lemma SplitLineParts(line: string)
    requires SplitLine(line).Some?
    ensures var p := SplitLine(line).value;
      line == Line(p.timestamp, p.nick, p.message) && '|' !in p.timestamp && '|' !in p.nick
  {
    JoinSplit(line, '|');
    JoinThree(Split(line, '|'), "|");
  }

  /** A line is skipped for its shape exactly when it holds fewer than two '|'. */
  lemma SplitLineFails(line: string)
    ensures SplitLine(line).None? <==> multiset(line)['|'] < 2
  {
    SplitCount(line, '|');
  }

  /** A line written by Add splits back into what was written, even when the message holds '|'. */
  lemma SplitLineOfLine(timestamp: string, nick: string, message: string)
    requires '|' !in timestamp && '|' !in nick
    ensures SplitLine(Line(timestamp, nick, message)) == Some(Parts(timestamp, nick, message))
  {
    var line := Line(timestamp, nick, message);
    SplitAfter(nick, message, '|');
    Assoc(timestamp + "|", nick, "|" + message);
    Assoc(timestamp + "|" + nick, "|", message);
    Assoc(nick, "|", message);
    SplitAfter(timestamp, nick + "|" + message, '|');
    var parts := Split(line, '|');
    assert parts == [timestamp, nick] + Split(message, '|');
    assert parts[2..] == Split(message, '|');
    JoinSplit(message, '|');
  }

  /** A nick holding '|' is split wrongly: its tail is read as part of the message. */
  lemma NickWithBarIsMisread()
    ensures SplitLine(Line("t", "a|b", "hi")) == Some(Parts("t", "a", "b|hi"))
  {
    SplitLineOfLine("t", "a", "b|hi");
    assert Line("t", "a|b", "hi") == Line("t", "a", "b|hi");
  }

  /** bufio.ScanLines drops one trailing carriage return from each line. */
  function DropCR(s: string): (r: string)
    ensures r == s || (r + "\r" == s)
  {
    if s != [] && s[|s| - 1] == '\r' then s[..|s| - 1] else s
  }

  /** The pieces between newlines, without the empty piece after a final newline. */
  function Pieces(content: string): seq<string> {
    var pieces := Split(content, '\n');
    if pieces[|pieces| - 1] == "" then pieces[..|pieces| - 1] else pieces
  }

  function DropCRs(pieces: seq<string>): (r: seq<string>)
    ensures |r| == |pieces|
  {
    if pieces == [] then [] else DropCRs(pieces[..|pieces| - 1]) + [DropCR(pieces[|pieces| - 1])]
  }

  /** The lines bufio.Scanner yields (with bufio.ScanLines). */
  function ScanLines(content: string): seq<string> {
    DropCRs(Pieces(content))
  }

  /** A file ending in a newline has one line per piece before that newline. */
  lemma PiecesOfTerminated(x: string)
    ensures Pieces(x + "\n") == Split(x, '\n')
  {
    assert x + "\n" == x + ['\n'] + "";
    SplitConcat(x, "", '\n');
    assert Split("", '\n') == [""];
  }

  lemma {:induction false} PiecesAppend(content: string, line: string)
    requires content == [] || content[|content| - 1] == '\n'
    requires '\n' !in line
    ensures Pieces(content + line + "\n") == Pieces(content) + [line]
  {
    assert Split(line + "\n", '\n') == [line, ""] by {
      assert line + "\n" == line + ['\n'] + "";
      SplitAfter(line, "", '\n');
      assert Split("", '\n') == [""];
    }
    if content == [] {
      assert content + line + "\n" == line + "\n";
      assert Split(content, '\n') == [""];
    } else {
      var x := content[..|content| - 1];
      assert content == x + "\n";
      PiecesOfTerminated(x);
      assert content + line + "\n" == x + ['\n'] + (line + "\n") by {
        Assoc(content, line, "\n");
        Assoc(x, ['\n'], line + "\n");
      }
      SplitConcat(x, line + "\n", '\n');
      Assoc(Split(x, '\n'), [line], [""]);
    }
  }

  lemma DropCRsSnoc(pieces: seq<string>, x: string)
    ensures DropCRs(pieces + [x]) == DropCRs(pieces) + [DropCR(x)]
  {
    assert (pieces + [x])[..|pieces|] == pieces;
  }

  /** Appending one newline-terminated line to a file that ends in a newline adds exactly that line. */
  lemma ScanLinesAppend(content: string, line: string)
    requires content == [] || content[|content| - 1] == '\n'
    requires '\n' !in line
    ensures ScanLines(content + line + "\n") == ScanLines(content) + [DropCR(line)]
  {
    PiecesAppend(content, line);
    DropCRsSnoc(Pieces(content), line);
  }

  /** A query. Limit <= 0 means no limit; a `None` time is the zero time, which turns that bound off. */
  datatype HistoryFilter = HistoryFilter(
    limit: int, search: string, startTime: Option<int>, endTime: Option<int>, countOnly: bool)

  /** The messages returned, in file order, and the count. */
  datatype Answer = Answer(messages: seq<string>, count: int)

  /** How a kept line is shown. */
  function Formatted(p: Parts): string {
    "<" + p.nick + "> " + p.message
  }

  /**
   * One line's fate: the formatted message if it has three parts, a
   * timestamp that parses, lies inside the window and matches the search.
   */
  function Passes(line: string, filter: HistoryFilter, parse: string -> Option<int>): (r: Option<string>)
    ensures r.Some? ==> SplitLine(line).Some? && r.value == Formatted(SplitLine(line).value)
  {
    match SplitLine(line)
    case None => None
    case Some(p) =>
      var f := Formatted(p);
      match parse(p.timestamp)
      case None => None
      case Some(t) =>
        if filter.startTime.Some? && t < filter.startTime.value then None
        else if filter.endTime.Some? && t > filter.endTime.value then None
        else if filter.search != "" && !Contains(AsciiLower(f), AsciiLower(filter.search)) then None
        else Some(f)
  }

  /**
   * A line is kept exactly when it has three parts, its timestamp parses and
   * is not before the start nor after the end, and its message matches the search.
   */
  lemma PassesExactly(line: string, filter: HistoryFilter, parse: string -> Option<int>)
    ensures Passes(line, filter, parse).Some? <==> (
      && SplitLine(line).Some?
      && parse(SplitLine(line).value.timestamp).Some?
      && (filter.startTime.Some? ==> parse(SplitLine(line).value.timestamp).value >= filter.startTime.value)
      && (filter.endTime.Some? ==> parse(SplitLine(line).value.timestamp).value <= filter.endTime.value)
      && (filter.search != "" ==>
            Contains(AsciiLower(Formatted(SplitLine(line).value)), AsciiLower(filter.search))))
  {
  }

  /** The query's test for one line. */
  function Keeper(filter: HistoryFilter, parse: string -> Option<int>): string -> Option<string> {
    line => Passes(line, filter, parse)
  }

  /** The messages of the lines `keep` accepts, in file order. */
  function Matches(lines: seq<string>, keep: string -> Option<string>): seq<string>
  {
    if lines == [] then []
    else (match keep(lines[0]) case Some(f) => [f] case None => []) + Matches(lines[1..], keep)
  }

  /** The matches of a file are those of its first part followed by those of the rest. */
  lemma {:induction false} MatchesAppend(a: seq<string>, b: seq<string>, keep: string -> Option<string>)
    ensures Matches(a + b, keep) == Matches(a, keep) + Matches(b, keep)
  {
    if a != [] {
      assert (a + b)[0] == a[0] && (a + b)[1..] == a[1..] + b;
      MatchesAppend(a[1..], b, keep);
    } else {
      assert a + b == b;
    }
  }

  /** Matching the lines from `i` on: line `i`'s message (if accepted) before the later ones. */
  lemma MatchesFrom(lines: seq<string>, i: nat, keep: string -> Option<string>)
    requires i < |lines|
    ensures Matches(lines[i..], keep) ==
      (match keep(lines[i]) case Some(f) => [f] case None => []) + Matches(lines[i + 1..], keep)
  {
    assert lines[i..][0] == lines[i] && lines[i..][1..] == lines[i + 1..];
  }

  /** When the lines from `i` on give exactly `n` matches, they are the last `n` of all matches. */
  lemma MatchesTail(lines: seq<string>, i: nat, keep: string -> Option<string>)
    requires i <= |lines|
    ensures var all := Matches(lines, keep); var n := |Matches(lines[i..], keep)|;
      n <= |all| && all[|all| - n..] == Matches(lines[i..], keep)
  {
    MatchesAppend(lines[..i], lines[i..], keep);
    assert lines[..i] + lines[i..] == lines;
  }

  /** A message is matched iff some line is accepted with that message. */
  lemma {:induction false} MatchesMembers(lines: seq<string>, keep: string -> Option<string>, m: string)
    ensures m in Matches(lines, keep) <==> exists k :: 0 <= k < |lines| && keep(lines[k]) == Some(m)
  {
    if lines != [] {
      MatchesMembers(lines[1..], keep, m);
      if exists k :: 0 <= k < |lines[1..]| && keep(lines[1..][k]) == Some(m) {
        var k :| 0 <= k < |lines[1..]| && keep(lines[1..][k]) == Some(m);
        assert lines[k + 1] == lines[1..][k];
      }
      if exists k :: 0 <= k < |lines| && keep(lines[k]) == Some(m) {
        var k :| 0 <= k < |lines| && keep(lines[k]) == Some(m);
        if k > 0 {
          assert lines[1..][k - 1] == lines[k];
        }
      }
    }
  }

  /**
   * What Get answers for the lines of a file: only the count, or the most
   * recent `limit` matches (all of them without a limit) in file order.
   */
  function Select(lines: seq<string>, keep: string -> Option<string>, limit: int, countOnly: bool): (r: Answer)
    ensures countOnly ==> r.messages == []
    ensures !countOnly ==> r.count == |r.messages|
    ensures !countOnly && limit > 0 ==> |r.messages| <= limit
    ensures !countOnly && limit > 0 && |Matches(lines, keep)| >= limit ==> |r.messages| == limit
  {
    var m := Matches(lines, keep);
    if countOnly then Answer([], |m|)
    else if limit > 0 && |m| > limit then Answer(m[|m| - limit..], limit)
    else Answer(m, |m|)
  }

  /** The answer to `filter`, with the line test of the filter. */
  function Query(lines: seq<string>, filter: HistoryFilter, parse: string -> Option<int>): Answer {
    Select(lines, Keeper(filter, parse), filter.limit, filter.countOnly)
  }

  /**
   * The answer keeps the newest matches: the returned messages end the list
   * of all matches, and the count of a count-only query is their number.
   */
  lemma QueryIsNewestMatches(lines: seq<string>, filter: HistoryFilter, parse: string -> Option<int>)
    ensures var m := Matches(lines, Keeper(filter, parse));
      var r := Query(lines, filter, parse);
      && |r.messages| <= |m| && r.messages == m[|m| - |r.messages|..]
      && (filter.countOnly ==> r.count == |m|)
      && (!filter.countOnly && (filter.limit <= 0 || |m| <= filter.limit) ==> r.messages == m)
      && (!filter.countOnly && filter.limit > 0 && |m| > filter.limit ==> |r.messages| == filter.limit)
  {
  }

  /** Every returned message contains the search text, ignoring ASCII case. */
  lemma QueryMatchesSearch(lines: seq<string>, filter: HistoryFilter, parse: string -> Option<int>, m: string)
    requires m in Query(lines, filter, parse).messages
    ensures StartsWith(m, "<")
    ensures filter.search != "" ==> Contains(AsciiLower(m), AsciiLower(filter.search))
  {
    var all := Matches(lines, Keeper(filter, parse));
    assert m in all;
    MatchesMembers(lines, Keeper(filter, parse), m);
  }

  /**
   * A message just added, whose timestamp parses inside the window and which
   * matches the search, is the last message of the next answer.
   */
  lemma NewestIsLast(lines: seq<string>, filter: HistoryFilter, parse: string -> Option<int>,
                     timestamp: string, nick: string, message: string)
    requires '|' !in timestamp && '|' !in nick
    requires !filter.countOnly
    requires Passes(Line(timestamp, nick, message), filter, parse).Some?
    ensures var r := Query(lines + [Line(timestamp, nick, message)], filter, parse);
      r.messages != [] && r.messages[|r.messages| - 1] == "<" + nick + "> " + message
  {
    var line := Line(timestamp, nick, message);
    SplitLineOfLine(timestamp, nick, message);
    MatchesAppend(lines, [line], Keeper(filter, parse));
    assert [line][1..] == [];
    assert Matches([line], Keeper(filter, parse)) == [Formatted(Parts(timestamp, nick, message))];
  }

  /**
   * The scan of Get: walk the lines from the newest back, prepend each
   * passing message, and stop once `limit` messages are held (unless only
   * counting).
   */
  method FilterLines(lines: seq<string>, keep: string -> Option<string>, limit: int, countOnly: bool)
    returns (result: seq<string>, count: int)
    ensures Answer(result, count) == Select(lines, keep, limit, countOnly)
  {
    result := [];
    count := 0;
    var i := |lines| - 1;
    while i >= 0
      invariant -1 <= i < |lines|
      invariant !countOnly ==> result == Matches(lines[i + 1..], keep) && count == |result|
      invariant countOnly ==> result == [] && count == |Matches(lines[i + 1..], keep)|
      invariant !countOnly && limit > 0 ==> |result| < limit
    {
      var line := lines[i];
      MatchesFrom(lines, i, keep);
      match keep(line) {
        case Some(formatted) =>
          count := count + 1;
          if !countOnly {
            result := [formatted] + result;
          }
        case None =>
      }
      if limit > 0 && |result| >= limit && !countOnly {
        MatchesTail(lines, i, keep);
        return;
      }
      i := i - 1;
    }
    assert lines[0..] == lines;
  }

  class FileHistory {
    /** The contents of every log file, by file name. */
    var files: map<string, string>

    /** Every file ends with a newline (or is empty), as Add leaves it. */
    ghost predicate Valid()
      reads this
    {
      forall f :: f in files ==> files[f] == [] || files[f][|files[f]| - 1] == '\n'
    }

    constructor ()
      ensures Valid() && files == map[]
    {
      files := map[];
    }

    /** The lines of a channel's file; a missing file has none. */
    function LinesOf(channel: string): seq<string>
      reads this
    {
      var path := FilePath(channel);
      if path in files then ScanLines(files[path]) else []
    }

    /**
     * Append `timestamp|nick|message` and a newline to the channel's file,
     * creating it if needed. `timestamp` is the clock reading in RFC 3339 form.
     */
    method Add(channel: string, nick: string, message: string, timestamp: string)
      requires Valid()
      modifies this
      ensures Valid()
      ensures files == old(files)[FilePath(channel) :=
        (if FilePath(channel) in old(files) then old(files)[FilePath(channel)] else "")
          + Line(timestamp, nick, message) + "\n"]
      ensures '\n' !in Line(timestamp, nick, message) ==>
        LinesOf(channel) == old(LinesOf(channel)) + [DropCR(Line(timestamp, nick, message))]
    {
      var path := FilePath(channel);
      var content := if path in files then files[path] else "";
      var line := Line(timestamp, nick, message);
      assert content == [] || content[|content| - 1] == '\n';
      ghost var before := ScanLines(content);
      assert before == LinesOf(channel);
      files := files[path := content + line + "\n"];
      assert files[path][|files[path]| - 1] == '\n';
      if '\n' !in line {
        ScanLinesAppend(content, line);
        assert LinesOf(channel) == ScanLines(content + line + "\n");
      }
    }

    /** Read the channel's lines and filter them; a missing file gives nothing. */
    method Get(channel: string, filter: HistoryFilter, parse: string -> Option<int>)
      returns (result: seq<string>, count: int)
      ensures Answer(result, count) == Query(LinesOf(channel), filter, parse)
      ensures FilePath(channel) !in files ==> result == [] && count == 0
    {
      var path := FilePath(channel);
      if path !in files {
        return [], 0;
      }
      var lines := ScanLines(files[path]);
      result, count := FilterLines(lines, Keeper(filter, parse), filter.limit, filter.countOnly);
    }
  }
}

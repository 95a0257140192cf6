/**
 * The IRC output chunker: streamed text is buffered, every complete line is
 * sent as soon as it is seen, and a buffer that reaches the maximum chunk size
 * is cut, preferably at its last space, so that IRC messages stay short.
 */
module IrcChunker {
  import opened Text

  /** The complete lines of `text`, without their newlines (empty ones included). */
  function CompleteLines(text: string): (r: seq<string>)
    ensures forall k :: 0 <= k < |r| ==> '\n' !in r[k]
  {
    var parts := Split(text, '\n');
    parts[..|parts| - 1]
  }

  /** What follows the last newline of `text`. */
  function Pending(text: string): (r: string)
    ensures '\n' !in r
  {
    var parts := Split(text, '\n');
    parts[|parts| - 1]
  }

  /** The lines and the pending text spell out the text again. */
  lemma LinesAndPendingRebuildText(text: string)
    ensures Join(CompleteLines(text) + [Pending(text)], "\n") == text
  {
    var parts := Split(text, '\n');
    assert CompleteLines(text) + [Pending(text)] == parts;
    JoinSplit(text, '\n');
  }

  /** A forced cut of the buffer: `data == chunk + skipped + rest`. */
  datatype Cut = Cut(chunk: string, skipped: string, rest: string)

  /**
   * Cut `data` for sending: at the last space within the first `maxChunkSize`
   * characters, if there is one at an index above zero (that space is
   * dropped); otherwise after exactly min(maxChunkSize, |data|) characters.
   */
  function BestSplit(data: string, maxChunkSize: nat): (c: Cut)
    ensures data == c.chunk + c.skipped + c.rest
    ensures |c.chunk| <= maxChunkSize
    ensures data == [] ==> c.chunk == []
    ensures c.skipped == " " || c.skipped == ""
    // a clean break drops exactly the last usable space of the allowed range
    ensures c.skipped == " " ==>
              (0 < |c.chunk| < Min(maxChunkSize, |data|)
               && forall j :: |c.chunk| < j < Min(maxChunkSize, |data|) ==> data[j] != ' ')
    // a hard break happens only when the allowed range has no usable space
    ensures c.skipped == "" ==>
              (|c.chunk| == Min(maxChunkSize, |data|)
               && forall j :: 0 < j < |c.chunk| ==> data[j] != ' ')
  {
    if |data| == 0 then Cut("", "", data)
    else
      var end := Min(maxChunkSize, |data|);
      var idx := LastIndexOf(data[..end], ' ');
      if idx > 0 then
        assert data == data[..idx] + " " + data[idx + 1..];
        Cut(data[..idx], " ", data[idx + 1..])
      else
        assert data == data[..end] + data[end..];
        Cut(data[..end], "", data[end..])
  }

  function Min(a: int, b: int): int {
    if a < b then a else b
  }

  /**
   * What one Write sends and what it leaves buffered: the non-empty complete
   * lines of buffer+content, then at most one forced chunk when the pending
   * text has reached the maximum chunk size.
   */
  function WriteEffect(buffer: string, content: string, maxChunkSize: nat): (r: (seq<string>, string))
    ensures '\n' !in r.1
    ensures forall k :: 0 <= k < |r.0| ==> r.0[k] != [] && '\n' !in r.0[k]
  {
    var text := buffer + content;
    var lines := NonEmpty(CompleteLines(text));
    var pending := Pending(text);
    NonEmptyKeepsNoNewline(CompleteLines(text));
    if |pending| >= maxChunkSize then
      var c := BestSplit(pending, maxChunkSize);
      assert '\n' !in c.chunk && '\n' !in c.rest by {
        PartsOfLine(pending, c.chunk, c.skipped + c.rest);
        PartsOfLine(pending, c.chunk + c.skipped, c.rest);
      }
      (lines + Sent(c.chunk), c.rest)
    else
      (lines, pending)
  }

  lemma PartsOfLine(s: string, a: string, b: string)
    requires s == a + b && '\n' !in s
    ensures '\n' !in a && '\n' !in b
  {
    assert forall k :: 0 <= k < |a| ==> a[k] == s[k];
    assert forall k :: 0 <= k < |b| ==> b[k] == s[|a| + k];
  }

  /** One step of splitting: the text before the first separator, then the split of the rest. */
  lemma SplitAtFirst(s: string, c: char)
    ensures c in s ==> Split(s, c) == [s[..IndexOf(s, c)]] + Split(s[IndexOf(s, c) + 1..], c)
    ensures c !in s ==> Split(s, c) == [s]
  {
  }

  lemma SeqAssoc(x: seq<string>, y: seq<string>, consumed: seq<string>, line: string, rest: seq<string>)
    requires x == consumed + y && y == [line] + rest
    ensures x == (consumed + [line]) + rest
  {
  }

  /** Consuming the first line of the buffer keeps the split of the whole text. */
  lemma LineStep(text: string, consumed: seq<string>, buffer: string, i: nat)
    requires Split(text, '\n') == consumed + Split(buffer, '\n')
    requires i == IndexOf(buffer, '\n') && i < |buffer|
    ensures Split(text, '\n') == (consumed + [buffer[..i]]) + Split(buffer[i + 1..], '\n')
  {
    var line, b2 := buffer[..i], buffer[i + 1..];
    assert Split(buffer, '\n') == [line] + Split(b2, '\n');
    SeqAssoc(Split(text, '\n'), Split(buffer, '\n'), consumed, line, Split(b2, '\n'));
  }

  /** Once the buffer has no newline, what was consumed are the complete lines and the buffer is pending. */
  lemma LastLine(text: string, consumed: seq<string>, buffer: string)
    requires Split(text, '\n') == consumed + Split(buffer, '\n')
    requires IndexOf(buffer, '\n') == |buffer|
    ensures CompleteLines(text) == consumed && Pending(text) == buffer
  {
    SplitAtFirst(buffer, '\n');
    assert Split(text, '\n') == consumed + [buffer];
  }

  lemma {:induction false} NonEmptyKeepsNoNewline(lines: seq<string>)
    requires forall k :: 0 <= k < |lines| ==> '\n' !in lines[k]
    ensures forall k :: 0 <= k < |NonEmpty(lines)| ==> '\n' !in NonEmpty(lines)[k]
  {
    if lines != [] {
      NonEmptyKeepsNoNewline(lines[..|lines| - 1]);
    }
  }

  /** The chunk as it is sent: an empty chunk is not sent. */
  function Sent(chunk: string): seq<string> {
    if chunk == [] then [] else [chunk]
  }

  lemma WriteEffectCases(buffer: string, content: string, maxChunkSize: nat)
    ensures var text := buffer + content;
            var lines := NonEmpty(CompleteLines(text));
            var pending := Pending(text);
            var c := BestSplit(pending, maxChunkSize);
            WriteEffect(buffer, content, maxChunkSize)
              == if |pending| >= maxChunkSize then (lines + Sent(c.chunk), c.rest) else (lines, pending)
  {
  }

  lemma Appended(before: seq<string>, sent: seq<string>, output: seq<string>)
    requires output == before + sent
    ensures |output| >= |before| && output[..|before|] == before && output[|before|..] == sent
  {
  }

  /** Nothing is lost by a Write: lines, dropped separators, chunk and buffer rebuild the text. */
  lemma {:induction false} WriteLosesNothing(buffer: string, content: string, maxChunkSize: nat)
    ensures var text := buffer + content;
            var pending := Pending(text);
            && Join(CompleteLines(text) + [pending], "\n") == text
            && NonEmpty(CompleteLines(text)) == WriteEffect(buffer, content, maxChunkSize).0[..|NonEmpty(CompleteLines(text))|]
            && (|pending| < maxChunkSize ==> WriteEffect(buffer, content, maxChunkSize).1 == pending)
            && (|pending| >= maxChunkSize ==>
                  var c := BestSplit(pending, maxChunkSize);
                  pending == c.chunk + c.skipped + WriteEffect(buffer, content, maxChunkSize).1)
  {
    LinesAndPendingRebuildText(buffer + content);
  }

  /** A Write sends at most one chunk beyond the complete lines, and only once the size limit is reached. */
  lemma AtMostOneForcedChunk(buffer: string, content: string, maxChunkSize: nat)
    ensures var lines := NonEmpty(CompleteLines(buffer + content));
            var sent := WriteEffect(buffer, content, maxChunkSize).0;
            |lines| <= |sent| <= |lines| + 1
            && (|sent| == |lines| + 1 ==> |Pending(buffer + content)| >= maxChunkSize
                                           && |sent[|lines|]| <= maxChunkSize)
  {
  }

  /** A complete line is sent whole, however long it is: only pending text is ever cut. */
  lemma {:induction false} CompleteLineIsSentWhole(line: string, maxChunkSize: nat)
    requires line != [] && '\n' !in line && maxChunkSize > 0
    ensures WriteEffect("", line + "\n", maxChunkSize) == ([line], "")
  {
    var text := "" + (line + "\n");
    assert IndexOf(text, '\n') == |line| by {
      assert text[|line|] == '\n';
      assert forall j :: 0 <= j < |line| ==> text[j] == line[j];
    }
    assert text[..|line|] == line && text[|line| + 1..] == "";
    assert Split(text, '\n') == [line, ""];
    assert CompleteLines(text) == [line] && Pending(text) == "";
    assert NonEmpty([line]) == [line] by {
      NonEmptySnoc([], line);
    }
  }

  class Chunker {
    /** Text received but not sent yet. */
    var buffer: string
    /** Every message sent on the output channel, in order. */
    var output: seq<string>
    const maxChunkSize: nat

    /** The buffer never holds a complete line between calls. */
    ghost predicate Valid()
      reads this
    {
      '\n' !in buffer
    }

    constructor (maxChunkSize: nat)
      ensures Valid() && buffer == [] && output == [] && this.maxChunkSize == maxChunkSize
    {
      this.maxChunkSize := maxChunkSize;
      buffer := [];
      output := [];
    }

    /** Buffer `content`, send every complete line and, if the buffer is too large, one chunk of it. */
    method Write(content: string)
      modifies this
      ensures Valid()
      ensures |output| >= |old(output)| && output[..|old(output)|] == old(output)
      ensures (output[|old(output)|..], buffer) == WriteEffect(old(buffer), content, maxChunkSize)
    {
      ghost var before := output;
      ghost var text := buffer + content;
      ghost var effect := WriteEffect(buffer, content, maxChunkSize);
      WriteEffectCases(buffer, content, maxChunkSize);
      buffer := buffer + content;
      SendCompleteLines();
      if |buffer| >= maxChunkSize {
        var chunk := ExtractBestSplitChunk();
        if chunk != "" {
          output := output + [chunk];
        }
      }
      Appended(before, effect.0, output);
    }

    /** Send each complete line of the buffer that is not empty, keeping only the pending text. */
    method SendCompleteLines()
      modifies this`buffer, this`output
      ensures output == old(output) + NonEmpty(CompleteLines(old(buffer)))
      ensures buffer == Pending(old(buffer))
    {
      ghost var text := buffer;
      ghost var consumed: seq<string> := [];
      while IndexOf(buffer, '\n') < |buffer|
        invariant Split(text, '\n') == consumed + Split(buffer, '\n')
        invariant output == old(output) + NonEmpty(consumed)
        decreases |buffer|
      {
        var i := IndexOf(buffer, '\n');
        var line := buffer[..i];
        LineStep(text, consumed, buffer, i);
        buffer := buffer[i + 1..];
        if line != "" {
          output := output + [line];
        }
        NonEmptySnoc(consumed, line);
        consumed := consumed + [line];
      }
      LastLine(text, consumed, buffer);
    }

    /** Remove and return the best chunk of the buffer. */
    method ExtractBestSplitChunk() returns (chunk: string)
      modifies this`buffer
      ensures chunk == BestSplit(old(buffer), maxChunkSize).chunk
      ensures buffer == BestSplit(old(buffer), maxChunkSize).rest
    {
      if |buffer| == 0 {
        return "";
      }
      var data := buffer;
      var end := Min(maxChunkSize, |data|);
      var idx := LastIndexOf(data[..end], ' ');
      if idx > 0 {
        chunk := data[..idx];
        buffer := buffer[idx + 1..];
        return;
      }
      chunk := data[..end];
      buffer := buffer[end..];
    }

    /** Send whatever is buffered, if anything, and empty the buffer. */
    method Flush()
      modifies this
      ensures buffer == []
      ensures old(buffer) != [] ==> output == old(output) + [old(buffer)]
      ensures old(buffer) == [] ==> output == old(output)
    {
      if |buffer| > 0 {
        output := output + [buffer];
        buffer := [];
      }
    }
  }
}

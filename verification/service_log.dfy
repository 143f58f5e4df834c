/** A bounded read of a log against a full one. */
module ServiceLogs {
  import opened Basics

  const TAIL_LINES: nat := 20
  const TAIL_BYTES: nat := 16 * 1024
  const LINE_FEED: Byte := 10
  const CARRIAGE_RETURN: Byte := 13

  /** Where the first line feed is, or the end. */
  function LineEnd(text: Bytes): (i: nat)
    ensures i <= |text| && LINE_FEED !in text[..i]
    ensures i < |text| ==> text[i] == LINE_FEED
    decreases |text|
  {
    if text == [] || text[0] == LINE_FEED then 0 else 1 + LineEnd(text[1..])
  }

  /** A line without the carriage return of its line end. */
  function Chomp(line: Bytes): Bytes {
    if line != [] && line[|line| - 1] == CARRIAGE_RETURN then line[..|line| - 1] else line
  }

  /** The lines of a text: an end of line ends each but perhaps the last, and nothing follows the last. */
  function Lines(text: Bytes): seq<Bytes>
    decreases |text|
  {
    if text == [] then []
    else
      var end := LineEnd(text);
      if end == |text| then [text] else [Chomp(text[..end])] + Lines(text[end + 1..])
  }

  ghost predicate IsSuffix<T>(a: seq<T>, b: seq<T>) {
    |a| <= |b| && b[|b| - |a|..] == a
  }

  function Max(a: nat, b: nat): nat {
    if a >= b then a else b
  }

  function Min(a: nat, b: nat): nat {
    if a <= b then a else b
  }

  function From(content: Bytes, start: nat): Bytes {
    if start <= |content| then content[start..] else []
  }

  /** Where a bounded read starts: at the attempt, or nearer the end of a long file. */
  function TailStart(from: nat, len: nat): nat {
    Max(from, if len > TAIL_BYTES then len - TAIL_BYTES else 0)
  }

  /** How many lines begin in a text past its first byte: one after every line feed but a final one. */
  function LineStarts(text: Bytes): nat
    decreases |text|
  {
    if |text| <= 1 then 0 else (if text[0] == LINE_FEED then 1 else 0) + LineStarts(text[1..])
  }

  /** How many lines of the log after `from` the bounded read is sure to see whole: all of them when
      it starts at `from`, else those that begin past its start. */
  function WholeLines(content: Bytes, from: nat, len: nat): nat {
    var start := TailStart(from, len);
    if start == from then |Lines(From(content, from))| else LineStarts(From(content, start))
  }

  /**
   The last lines of a full read from `from` on, by a bounded one. `len` is the file's length when it was looked up and
   `content` what it holds when read, which may be more; `found` and `read` say whether the file
   could be found and read.
   */
  method TailSince(from: nat, found: bool, len: nat, read: bool, content: Bytes) returns (tail: seq<Bytes>)
    ensures !found || !read ==> tail == []
    ensures found && read ==>
      && IsSuffix(tail, Lines(From(content, from)))
      && |tail| == Min(TAIL_LINES, WholeLines(content, from, len))
      && EndsText(tail, if from <= |content| then content[from..] else [])
  {
    if !found {
      return [];
    }
    var start := TailStart(from, len);
    if !read {
      return [];
    }
    var bytes := From(content, start);
    var lines := Lines(bytes);
    if start > from && lines != [] {
      lines := lines[1..];
    }
    CountLines(bytes);
    TailIsSuffix(content, from, start);
    var skipped := if |lines| > TAIL_LINES then |lines| - TAIL_LINES else 0;
    tail := lines[skipped..];
    SuffixOfSuffix(lines, Lines(From(content, from)), skipped);
    LastLinesEndText(From(content, from), tail);
  }

  lemma NothingIsSuffix<T>(a: seq<T>)
    ensures IsSuffix([], a) && Lines([]) == []
  {
  }

  lemma SameIsSuffix<T>(a: seq<T>)
    ensures IsSuffix(a, a)
  {
  }

  lemma SuffixOfSuffix<T>(a: seq<T>, b: seq<T>, n: nat)
    requires IsSuffix(a, b) && n <= |a|
    ensures IsSuffix(a[n..], b)
  {
  }

  lemma LongerSuffix<T>(a: seq<T>, first: T, b: seq<T>)
    requires IsSuffix(a, b)
    ensures IsSuffix(a, [first] + b)
  {
  }

  /** What a read that starts within a line keeps of its lines. */
  function AfterFirst(lines: seq<Bytes>): seq<Bytes> {
    if lines == [] then [] else lines[1..]
  }

  lemma FirstLine(text: Bytes, end: nat)
    requires end == LineEnd(text) < |text|
    ensures Lines(text) == [Chomp(text[..end])] + Lines(text[end + 1..])
  {
  }

  /** Cutting a text anywhere and dropping the line cut leaves lines of the text, whole and last. */
  lemma {:induction false} CutLines(text: Bytes, cut: nat)
    requires cut <= |text|
    ensures IsSuffix(AfterFirst(Lines(text[cut..])), Lines(text))
    decreases |text|
  {
    hide Lines, LineEnd, Chomp, IsSuffix, AfterFirst;
    var end := LineEnd(text);
    if end == |text| {
      CutLastLine(text, cut);
    } else if cut <= end {
      CutBeforeLineEnd(text, cut);
    } else {
      CutLines(text[end + 1..], cut - end - 1);
      CutLater(text, cut, end);
    }
  }

  lemma {:induction false} CutLater(text: Bytes, cut: nat, end: nat)
    requires end == LineEnd(text) < cut <= |text|
    requires IsSuffix(AfterFirst(Lines(text[end + 1..][cut - end - 1..])), Lines(text[end + 1..]))
    ensures IsSuffix(AfterFirst(Lines(text[cut..])), Lines(text))
  {
    hide Lines, LineEnd, Chomp, IsSuffix, AfterFirst;
    var rest := text[end + 1..];
    assert text[cut..] == rest[cut - end - 1..];
    FirstLine(text, end);
    LongerSuffix(AfterFirst(Lines(text[cut..])), Chomp(text[..end]), Lines(rest));
  }

  lemma {:induction false} LineEndIs(text: Bytes, i: nat)
    requires i <= |text| && (forall k :: 0 <= k < i ==> text[k] != LINE_FEED) && (i < |text| ==> text[i] == LINE_FEED)
    ensures LineEnd(text) == i
    decreases |text|
  {
    if i > 0 {
      LineEndIs(text[1..], i - 1);
    }
  }

  /** Where the first line ends, seen from within it. */
  lemma {:induction false} LineEndAfterCut(text: Bytes, cut: nat)
    requires cut <= LineEnd(text)
    ensures LineEnd(text[cut..]) == LineEnd(text) - cut
  {
    hide LineEnd;
    var end, after := LineEnd(text), text[cut..];
    forall k | 0 <= k < end - cut ensures after[k] != LINE_FEED {
      assert text[..end][cut + k] == after[k];
    }
    LineEndIs(after, end - cut);
  }

  /** A cut within the first line leaves its end, then the same lines. */
  lemma {:induction false} CutBeforeLineEnd(text: Bytes, cut: nat)
    requires cut <= LineEnd(text) < |text|
    ensures AfterFirst(Lines(text[cut..])) == Lines(text[LineEnd(text) + 1..])
    ensures IsSuffix(AfterFirst(Lines(text[cut..])), Lines(text))
  {
    hide Lines, Chomp, LineEnd, IsSuffix;
    var end, after := LineEnd(text), text[cut..];
    var rest := text[end + 1..];
    LineEndAfterCut(text, cut);
    FirstLine(after, end - cut);
    assert after[end - cut + 1..] == rest;
    FirstLine(text, end);
    SameIsSuffix(Lines(rest));
    LongerSuffix(Lines(rest), Chomp(text[..end]), Lines(rest));
  }

  lemma {:induction false} CutLastLine(text: Bytes, cut: nat)
    requires LineEnd(text) == |text| && cut <= |text|
    ensures AfterFirst(Lines(text[cut..])) == []
    ensures IsSuffix(AfterFirst(Lines(text[cut..])), Lines(text))
  {
    hide LineEnd;
    LineEndAfterCut(text, cut);
  }

  /** A text has a first line, and one more for each line start past it. */
  lemma {:induction false} CountLines(text: Bytes)
    ensures |Lines(text)| == if text == [] then 0 else 1 + LineStarts(text)
    decreases |text|
  {
    hide Lines, LineEnd, Chomp;
    NothingIsSuffix<Byte>([]);
    if text != [] {
      var end := LineEnd(text);
      FirstLineStart(text);
      if end < |text| {
        FirstLine(text, end);
        CountLines(text[end + 1..]);
      } else {
        assert text[..end] == text;
        NoLineEnd(text);
      }
    }
  }

  /** The first line past a text's own first begins after the first line feed, if anything does. */
  lemma {:induction false} FirstLineStart(text: Bytes)
    requires text != []
    ensures var end := LineEnd(text);
            LineStarts(text) == if end + 1 < |text| then 1 + LineStarts(text[end + 1..]) else 0
    decreases |text|
  {
    if text[0] != LINE_FEED && |text| > 1 {
      FirstLineStart(text[1..]);
      assert LineEnd(text) + 1 < |text| ==> text[1..][LineEnd(text)..] == text[LineEnd(text) + 1..];
    }
  }

  /** What is kept of a read that starts at or past `from` ends the lines written after `from`. */
  lemma {:induction false} TailIsSuffix(content: Bytes, from: nat, start: nat)
    requires from <= start
    ensures var lines := Lines(From(content, start));
            IsSuffix(if start > from then AfterFirst(lines) else lines, Lines(From(content, from)))
  {
    hide Lines, IsSuffix;
    if from < start <= |content| {
      var text := From(content, from);
      assert text[start - from..] == From(content, start);
      CutLines(text, start - from);
    } else if start > |content| {
      NothingIsSuffix(Lines(From(content, from)));
    } else {
      SameIsSuffix(Lines(From(content, from)));
    }
  }

  // ----- what lines are -----

  /** Ends of lines: a line feed, with a carriage return when the line is followed by one; only the
      last line may go without, and then it is not empty. */
  ghost predicate WellEnded(lines: seq<Bytes>, ends: seq<Bytes>) {
    && |ends| == |lines|
    && forall i :: 0 <= i < |lines| ==>
         && LINE_FEED !in lines[i]
         && match |ends[i]|
            case 0 => i == |lines| - 1 && lines[i] != []
            case 1 => ends[i] == [LINE_FEED] && (lines[i] != [] ==> lines[i][|lines[i]| - 1] != CARRIAGE_RETURN)
            case _ => ends[i] == [CARRIAGE_RETURN, LINE_FEED]
  }

  /** Lines joined, each with its end. */
  ghost function Joined(lines: seq<Bytes>, ends: seq<Bytes>): Bytes
    requires |ends| == |lines|
    decreases |lines|
  {
    if lines == [] then [] else lines[0] + ends[0] + Joined(lines[1..], ends[1..])
  }

  /** The lines of a text with their ends make up the text. */
  lemma {:induction false} LinesMakeUpText(text: Bytes) returns (ends: seq<Bytes>)
    ensures WellEnded(Lines(text), ends) && Joined(Lines(text), ends) == text
    decreases |text|
  {
    if text == [] {
      ends := [];
    } else {
      var end := LineEnd(text);
      if end == |text| {
        ends := [[]];
        assert text[..end] == text;
        JoinedOne(text, []);
      } else {
        var rest := LinesMakeUpText(text[end + 1..]);
        FirstLine(text, end);
        var first := text[end - (if Returns(text[..end]) then 1 else 0)..end + 1];
        ends := [first] + rest;
        FirstEnd(text, end, first);
        LongerEnded(Chomp(text[..end]), first, Lines(text[end + 1..]), rest);
      }
    }
  }

  predicate Returns(line: Bytes) {
    line != [] && line[|line| - 1] == CARRIAGE_RETURN
  }

  lemma {:induction false} FirstEnd(text: Bytes, end: nat, first: Bytes)
    requires end == LineEnd(text) < |text| && first == text[end - (if Returns(text[..end]) then 1 else 0)..end + 1]
    ensures Chomp(text[..end]) + first + text[end + 1..] == text && LINE_FEED !in Chomp(text[..end])
    ensures first == if Returns(text[..end]) then [CARRIAGE_RETURN, LINE_FEED] else [LINE_FEED]
    ensures Returns(text[..end]) || Chomp(text[..end]) == text[..end]
  {
    hide LineEnd;
  }

  lemma {:induction false} LongerEnded(line: Bytes, end: Bytes, lines: seq<Bytes>, ends: seq<Bytes>)
    requires WellEnded(lines, ends) && LINE_FEED !in line
    requires end == [CARRIAGE_RETURN, LINE_FEED] || (end == [LINE_FEED] && !Returns(line))
    ensures WellEnded([line] + lines, [end] + ends)
    ensures Joined([line] + lines, [end] + ends) == line + end + Joined(lines, ends)
  {
    assert ([line] + lines)[1..] == lines && ([end] + ends)[1..] == ends;
  }

  lemma {:induction false} JoinedOne(line: Bytes, end: Bytes)
    ensures Joined([line], [end]) == line + end
  {
    assert [line][1..] == [] && [end][1..] == [];
  }

  /** And nothing else does: lines that do are the text's. */
  lemma {:induction false} OnlyLinesDo(lines: seq<Bytes>, ends: seq<Bytes>)
    requires WellEnded(lines, ends)
    ensures Lines(Joined(lines, ends)) == lines
    decreases |lines|
  {
    if lines != [] {
      var line, end, text := lines[0], ends[0], Joined(lines, ends);
      var more := Joined(lines[1..], ends[1..]);
      assert WellEnded(lines[1..], ends[1..]);
      OnlyLinesDo(lines[1..], ends[1..]);
      if end == [] {
        assert text == line;
        NoLineEnd(text);
      } else {
        EndedLine(line, end, more);
      }
      assert lines == [line] + lines[1..];
    }
  }

  lemma {:induction false} NoLineEnd(text: Bytes)
    requires text != [] && LINE_FEED !in text
    ensures Lines(text) == [text]
  {
    hide LineEnd;
  }

  lemma {:induction false} FeedEnds(line: Bytes, more: Bytes)
    requires LINE_FEED !in line
    ensures Lines(line + [LINE_FEED] + more) == [Chomp(line)] + Lines(more)
  {
    hide Lines, LineEnd, Chomp;
    var text := line + [LINE_FEED] + more;
    LineEndIs(text, |line|);
    FirstLine(text, |line|);
    assert text[..|line|] == line && text[|line| + 1..] == more;
  }

  lemma {:induction false} EndedLine(line: Bytes, end: Bytes, more: Bytes)
    requires LINE_FEED !in line
    requires end == [CARRIAGE_RETURN, LINE_FEED] || (end == [LINE_FEED] && !Returns(line))
    ensures Lines(line + end + more) == [line] + Lines(more)
  {
    hide Lines;
    if |end| == 1 {
      FeedEnds(line, more);
    } else {
      var returned := line + [CARRIAGE_RETURN];
      FeedEnds(returned, more);
      assert Chomp(returned) == line;
      assert returned + [LINE_FEED] == line + end;
    }
  }

  /** Lines that, with their ends, are the last bytes of a text. */
  ghost predicate EndsText(lines: seq<Bytes>, text: Bytes) {
    exists ends :: EndsTextWith(lines, ends, text)
  }

  ghost predicate EndsTextWith(lines: seq<Bytes>, ends: seq<Bytes>, text: Bytes) {
    WellEnded(lines, ends) && IsSuffix(Joined(lines, ends), text)
  }

  lemma {:induction false} JoinedSuffix(lines: seq<Bytes>, ends: seq<Bytes>, n: nat)
    requires |ends| == |lines| && n <= |lines|
    ensures IsSuffix(Joined(lines[n..], ends[n..]), Joined(lines, ends))
    decreases n
  {
    if n == 0 {
      assert lines[n..] == lines && ends[n..] == ends;
    } else {
      JoinedSuffix(lines[1..], ends[1..], n - 1);
      assert lines[1..][n - 1..] == lines[n..] && ends[1..][n - 1..] == ends[n..];
    }
  }

  lemma {:induction false} LastLinesEndText(text: Bytes, tail: seq<Bytes>)
    requires IsSuffix(tail, Lines(text))
    ensures EndsText(tail, text)
  {
    hide Lines, Joined;
    var ends := LinesMakeUpText(text);
    var n := |Lines(text)| - |tail|;
    JoinedSuffix(Lines(text), ends, n);
    assert EndsTextWith(tail, ends[n..], text);
  }

  // ----- how much is read -----

  /** A log that grew by more than is read shows the lines that begin within its last bytes. */
  lemma LongLogReadInPart(content: Bytes, from: nat, len: nat)
    requires from + 16 * 1024 < len <= |content|
    ensures WholeLines(content, from, len) == LineStarts(content[len - 16 * 1024..])
  {
  }

  /** A log short enough to be read whole gives its last lines, all of them if they are few. */
  lemma ShortLogReadWhole(content: Bytes, from: nat)
    requires |content| <= from + 16 * 1024
    ensures WholeLines(content, from, |content|) == |Lines(From(content, from))|
  {
  }

  /** A line is never split: no line of a text holds a line feed. */
  lemma {:induction false} LinesHoldNoLineFeed(text: Bytes, i: nat)
    requires i < |Lines(text)|
    ensures LINE_FEED !in Lines(text)[i]
    decreases |text|
  {
    var end := LineEnd(text);
    if end < |text| && i > 0 {
      LinesHoldNoLineFeed(text[end + 1..], i - 1);
    }
  }
}

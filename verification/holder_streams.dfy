/**
 What a client learns from the frames it is sent, in order. A stream is every frame a client's
 writer has taken followed by every frame still queued for it.
 */
module HolderStreams {
  import opened Basics
  import opened HolderProtocol
  import opened Sieve

  // ----- reading a stream -----

  /** The screen a terminal shows that starts afresh at each snapshot and plays output on top. */
  ghost function Replay<S>(t: Terminal<S>, s: seq<Frame>): Option<S>
    decreases |s|
  {
    if s == [] then None
    else
      var front := s[..|s| - 1];
      match s[|s| - 1].value
      case Snapshot(repaint, size, _, _, _, _) => Some(t.rebuild(size, repaint))
      case Output(_, bytes) =>
        var shown := Replay(t, front);
        if shown.None? then None else Some(t.feed(shown.value, bytes).screen)
      case _ => Replay(t, front)
  }

  predicate Placed(f: Frame) {
    f.value.Snapshot? || f.value.Output?
  }

  function Start(f: Frame): nat
    requires Placed(f)
  {
    if f.value.Snapshot? then f.value.logEnd else f.value.at
  }

  function Stop(f: Frame): nat
    requires Placed(f)
  {
    if f.value.Snapshot? then f.value.logEnd else f.value.at + |f.value.bytes|
  }

  /** How far along the log a stream has come; -1 before it has a place in it. */
  ghost function End(s: seq<Frame>): int
    decreases |s|
  {
    if s == [] then -1
    else if Placed(s[|s| - 1]) then Stop(s[|s| - 1])
    else End(s[..|s| - 1])
  }

  /** The writable attach clients a stream last counted; -1 before it has. */
  ghost function Told(s: seq<Frame>): int
    decreases |s|
  {
    if s == [] then -1
    else
      match s[|s| - 1].value
      case Snapshot(_, _, _, attached, _, _) => attached
      case Attached(count) => count
      case _ => Told(s[..|s| - 1])
  }

  ghost function Warnings(s: seq<Frame>): nat
    decreases |s|
  {
    if s == [] then 0
    else Warnings(s[..|s| - 1]) + (if s[|s| - 1].value.Warning? then 1 else 0)
  }

  ghost predicate Hears(s: seq<Frame>, m: Message) {
    exists i :: 0 <= i < |s| && s[i].value == m
  }

  // ----- the shape of a supervisor's stream -----

  /** Each placed frame is the log's own: output carries the log's bytes at its place. */
  ghost predicate FromLog(s: seq<Frame>, log: Bytes) {
    forall i :: 0 <= i < |s| && Placed(s[i]) ==>
      && Stop(s[i]) <= |log|
      && (s[i].value.Output? ==> s[i].value.bytes == log[s[i].value.at..Stop(s[i])])
  }

  /** No placed frame goes back over what an earlier one covered. */
  ghost predicate Forward(s: seq<Frame>) {
    forall i, j :: 0 <= i < j < |s| && Placed(s[i]) && Placed(s[j]) ==> Stop(s[i]) <= Start(s[j])
  }

  /** Each output starts exactly where the snapshot or output before it left off. */
  ghost predicate Tiled(s: seq<Frame>)
    decreases |s|
  {
    s == [] || (
      && Tiled(s[..|s| - 1])
      && (s[|s| - 1].value.Output? ==> End(s[..|s| - 1]) == s[|s| - 1].value.at))
  }

  /** Setting warnings and repeated exits aside, the stream ends in a snapshot. */
  ghost predicate ShowsScreen(s: seq<Frame>)
    decreases |s|
  {
    s != [] && (
      || s[|s| - 1].value.Snapshot?
      || ((s[|s| - 1].value.Warning? || s[|s| - 1].value.Exited?) && ShowsScreen(s[..|s| - 1])))
  }

  /** Each exit comes right after the screen it left. */
  ghost predicate ExitsShown(s: seq<Frame>)
    decreases |s|
  {
    s == [] || (
      && ExitsShown(s[..|s| - 1])
      && (s[|s| - 1].value.Exited? ==> ShowsScreen(s[..|s| - 1])))
  }

  /** No warning comes after an exit, when the service has stopped reading. */
  ghost predicate WarnsFirst(s: seq<Frame>) {
    forall i, j :: 0 <= i < j < |s| && s[i].value.Exited? ==> !s[j].value.Warning?
  }

  // ----- one more frame -----

  lemma {:induction false} Append<S>(t: Terminal<S>, s: seq<Frame>, f: Frame)
    ensures Replay(t, s + [f]) ==
      match f.value
      case Snapshot(repaint, size, _, _, _, _) => Some(t.rebuild(size, repaint))
      case Output(_, bytes) =>
        (if Replay(t, s).None? then None else Some(t.feed(Replay(t, s).value, bytes).screen))
      case _ => Replay(t, s)
    ensures End(s + [f]) == if Placed(f) then Stop(f) else End(s)
    ensures Told(s + [f]) ==
      match f.value
      case Snapshot(_, _, _, attached, _, _) => attached
      case Attached(count) => count
      case _ => Told(s)
    ensures Warnings(s + [f]) == Warnings(s) + (if f.value.Warning? then 1 else 0)
    ensures Tiled(s + [f]) <==> Tiled(s) && (f.value.Output? ==> End(s) == f.value.at)
    ensures ShowsScreen(s + [f]) <==>
      f.value.Snapshot? || ((f.value.Warning? || f.value.Exited?) && ShowsScreen(s))
    ensures ExitsShown(s + [f]) <==> ExitsShown(s) && (f.value.Exited? ==> ShowsScreen(s))
  {
    assert (s + [f])[..|s|] == s;
  }

  lemma {:induction false} AppendHears(s: seq<Frame>, f: Frame, m: Message)
    ensures Hears(s + [f], m) <==> Hears(s, m) || f.value == m
  {
    var longer := s + [f];
    if Hears(s, m) {
      var i :| 0 <= i < |s| && s[i].value == m;
      assert longer[i].value == m;
    }
    if f.value == m {
      assert longer[|s|].value == m;
    }
  }

  /** A stream in order reaches as far as any of its frames. */
  lemma {:induction false} EndIsFurthest(s: seq<Frame>, i: nat)
    requires Forward(s) && i < |s| && Placed(s[i])
    ensures Stop(s[i]) <= End(s)
    decreases |s|
  {
    if i < |s| - 1 && !Placed(s[|s| - 1]) {
      EndIsFurthest(s[..|s| - 1], i);
    }
  }

  // ----- a prefix of a stream -----

  lemma {:induction false} Prefix(s: seq<Frame>, n: nat)
    requires n <= |s|
    ensures Tiled(s) ==> Tiled(s[..n])
    ensures ExitsShown(s) ==> ExitsShown(s[..n])
    decreases |s|
  {
    if n < |s| {
      Prefix(s[..|s| - 1], n);
      assert s[..|s| - 1][..n] == s[..n];
    } else {
      assert s[..n] == s;
    }
  }

  // ----- a stream some frames were cleared out of -----

  lemma {:induction false} WarningsConserved(s: seq<Frame>, mask: seq<bool>)
    requires |s| == |mask|
    ensures Warnings(Kept(s, mask)) + Warnings(Dropped(s, mask)) == Warnings(s)
    decreases |s|
  {
    if s != [] {
      var last := |s| - 1;
      WarningsConserved(s[..last], mask[..last]);
      assert Kept(s, mask) == Kept(s[..last], mask[..last]) + (if mask[last] then [s[last]] else []);
      WarningsOfConcat(Kept(s[..last], mask[..last]), if mask[last] then [s[last]] else []);
      WarningsOfConcat(Dropped(s[..last], mask[..last]), if mask[last] then [] else [s[last]]);
    }
  }

  lemma {:induction false} WarningsOfConcat(s: seq<Frame>, t: seq<Frame>)
    ensures Warnings(s + t) == Warnings(s) + Warnings(t)
    decreases |t|
  {
    if t == [] {
      assert s + t == s;
    } else {
      WarningsOfConcat(s, t[..|t| - 1]);
      assert (s + t)[..|s + t| - 1] == s + t[..|t| - 1];
    }
  }

  /** Clearing frames out of a stream leaves the rest in order. */
  lemma {:induction false} ForwardWhenThinned(base: seq<Frame>, s: seq<Frame>, mask: seq<bool>)
    requires |s| == |mask| && Forward(base + s)
    ensures Forward(base + Kept(s, mask))
    decreases |s|
  {
    if s == [] {
      assert base + Kept(s, mask) == base + s;
    } else {
      var last := |s| - 1;
      var front, kept := s[..last], Kept(s[..last], mask[..last]);
      assert (base + s)[..|base| + last] == base + front;
      ForwardWhenThinned(base, front, mask[..last]);
      if mask[last] {
        forall i | 0 <= i < |base + kept| && Placed((base + kept)[i]) && Placed(s[last])
          ensures Stop((base + kept)[i]) <= Start(s[last])
        {
          var j := Origin(base, front, mask[..last], i);
          assert (base + s)[j] == (base + kept)[i] && (base + s)[|base| + last] == s[last];
        }
        assert base + Kept(s, mask) == (base + kept) + [s[last]];
      } else {
        assert base + Kept(s, mask) == base + kept;
      }
    }
  }

  lemma {:induction false} FromLogWhenThinned(base: seq<Frame>, s: seq<Frame>, mask: seq<bool>, log: Bytes)
    requires |s| == |mask| && FromLog(base + s, log)
    ensures FromLog(base + Kept(s, mask), log)
  {
    var thinned := base + Kept(s, mask);
    forall i | 0 <= i < |thinned| && Placed(thinned[i])
      ensures && Stop(thinned[i]) <= |log|
              && (thinned[i].value.Output? ==>
                    thinned[i].value.bytes == log[thinned[i].value.at..Stop(thinned[i])])
    {
      var j := Origin(base, s, mask, i);
      assert (base + s)[j] == thinned[i];
    }
  }

  // ----- warnings picked out -----

  /** The warnings among `s`, as a resync keeps them. */
  function WarningsIn(s: seq<Frame>): (w: seq<Frame>)
    ensures forall i :: 0 <= i < |w| ==> w[i].value.Warning? && w[i] in s
    decreases |s|
  {
    if s == [] then []
    else
      var last := s[|s| - 1];
      WarningsIn(s[..|s| - 1]) + (if last.value.Warning? then [last] else [])
  }

  lemma {:induction false} WarningsInCounts(s: seq<Frame>)
    ensures Warnings(WarningsIn(s)) == Warnings(s)
    decreases |s|
  {
    if s != [] {
      WarningsInCounts(s[..|s| - 1]);
      var last := s[|s| - 1];
      WarningsOfConcat(WarningsIn(s[..|s| - 1]), if last.value.Warning? then [last] else []);
      assert last.value.Warning? ==> Warnings([last]) == 1 by {
        assert [last][..0] == [];
      }
    }
  }

  /** Frames that move neither the screen, the place in the log nor the count. */
  predicate Quiet(f: Frame) {
    f.value.Warning? || f.value.Exited?
  }

  lemma {:induction false} QuietTail<S>(t: Terminal<S>, s: seq<Frame>, tail: seq<Frame>)
    requires forall i :: 0 <= i < |tail| ==> Quiet(tail[i])
    ensures Replay(t, s + tail) == Replay(t, s)
    ensures End(s + tail) == End(s) && Told(s + tail) == Told(s)
    ensures Tiled(s + tail) == Tiled(s)
    ensures ShowsScreen(s) ==> ShowsScreen(s + tail)
    ensures ShowsScreen(s) && ExitsShown(s) ==> ExitsShown(s + tail)
    decreases |tail|
  {
    if tail == [] {
      assert s + tail == s;
    } else {
      var front := tail[..|tail| - 1];
      QuietTail(t, s, front);
      Append(t, s + front, tail[|tail| - 1]);
      assert s + tail == s + front + [tail[|tail| - 1]];
    }
  }
}

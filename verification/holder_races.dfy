/**
 What a writer that overtakes a clear costs its client. A clear takes frames off the channel one
 by one while the writer may take them too, so the writer can receive a frame behind one that was
 cleared. The screen, the exit and the count survive that; the order of a supervisor's frames may
 not. Here is what can be queued before a resync for each order to survive it however the writer
 runs.
 */
module HolderRaces {
  import opened ByteQueues
  import opened HolderProtocol
  import opened HolderStreams
  import opened HolderClients
  import opened Sieve

  // ----- every race can happen -----

  /** `steps` lead from `q` to `r`. */
  ghost predicate Reaches<T>(q: Queue<T>, steps: seq<Step<T>>, r: Queue<T>) {
    Runs(q, steps) && After(q, steps) == r
  }

  lemma {:induction false} OneStep<T>(q: Queue<T>, step: Step<T>, steps: seq<Step<T>>, r: Queue<T>)
    requires Enabled(q, step) && Reaches(Apply(q, step), steps, r)
    ensures Reaches(q, [step] + steps, r)
  {
    assert ([step] + steps)[1..] == steps;
  }

  lemma {:induction false} TwoSteps<T>(q: Queue<T>, first: Step<T>, second: Step<T>, steps: seq<Step<T>>, r: Queue<T>)
    requires Enabled(q, first) && Enabled(Apply(q, first), second) && Reaches(Apply(Apply(q, first), second), steps, r)
    ensures Reaches(q, [first, second] + steps, r)
  {
    OneStep(Apply(q, first), second, steps, r);
    OneStep(q, first, [second] + steps, r);
    assert [first] + ([second] + steps) == [first, second] + steps;
  }

  /** No item is received behind a cleared one. */
  ghost predicate InOrder(mask: seq<bool>) {
    forall i, j :: 0 <= i < j < |mask| && mask[j] ==> mask[i]
  }

  lemma {:induction false} InOrderSplits<T>(s: seq<T>, mask: seq<bool>)
    requires |s| == |mask| && InOrder(mask)
    ensures s == Kept(s, mask) + Dropped(s, mask)
    decreases |s|
  {
    if s != [] {
      var last := |s| - 1;
      if mask[last] {
        KeptAll(s, mask);
      } else {
        var front, x, fates := s[..last], s[last], mask[..last];
        InOrderSplits(front, fates);
        Extend(front, fates, x, false);
        assert front + [x] == s && fates + [false] == mask;
        hide Kept, Dropped;
        Regroup(Kept(front, fates), Dropped(front, fates), [x]);
      }
    }
  }

  /** The front of the channel received, or cleared, during a clear. */
  lemma {:induction false} OneFate<T>(q: Queue<T>, keep: bool) returns (first: Step<T>, second: Step<T>, rest: Queue<T>)
    requires Inv(q) && q.producer.Clearing? && q.consumer.Waiting? && q.channel != []
    ensures Enabled(q, first) && Enabled(Apply(q, first), second) && rest == Apply(Apply(q, first), second)
    ensures Inv(rest) && rest.consumer.Waiting? && rest.channel == q.channel[1..]
    ensures rest.cap == q.cap && rest.accepted == q.accepted && rest.fates == q.fates + [keep]
    ensures rest.producer == Clearing(q.producer.discarded + if keep then 0 else 1)
    ensures rest.overtaken == (q.overtaken || (keep && q.producer.discarded > 0))
  {
    hide Inv;
    first, second := if keep then Receive else Discard, if keep then Credit else Free;
    StepKeepsInv(q, first);
    StepKeepsInv(Apply(q, first), second);
    rest := Apply(Apply(q, first), second);
  }

  lemma FatesNext(fates: seq<bool>, mask: seq<bool>)
    requires mask != []
    ensures fates + [mask[0]] + mask[1..] == fates + mask
  {
  }

  lemma {:induction false} InOrderNext(mask: seq<bool>)
    requires mask != []
    ensures mask[0] && InOrder(mask[1..]) ==> InOrder(mask)
    ensures !mask[0] && (forall i :: 0 <= i < |mask| - 1 ==> !mask[1..][i]) ==>
      InOrder(mask) && forall i :: 0 <= i < |mask| ==> !mask[i]
  {
    assert forall i :: 0 < i < |mask| ==> mask[i] == mask[1..][i - 1];
  }

  /** A clear of the rest of the channel in which the writer receives what `mask` says. */
  lemma {:induction false} RaceRuns<T>(q: Queue<T>, mask: seq<bool>) returns (steps: seq<Step<T>>, r: Queue<T>)
    requires Inv(q) && q.producer.Clearing? && q.consumer.Waiting? && |mask| == |q.channel|
    ensures Reaches(q, steps, r) && Settled(r) && r.consumer.Waiting? && r.channel == []
    ensures r.cap == q.cap && r.accepted == q.accepted && r.fates == q.fates + mask
    ensures q.overtaken ==> r.overtaken
    ensures !r.overtaken ==> InOrder(mask) && (q.producer.discarded > 0 ==> forall i :: 0 <= i < |mask| ==> !mask[i])
    decreases |mask|
  {
    if mask == [] {
      r := Apply(q, EndClear);
      StepKeepsInv(q, EndClear);
      OneStep(q, EndClear, [], r);
      steps := [EndClear] + [];
    } else {
      hide Inv, Enabled, Apply, Reaches, MidClear;
      var first, second, rest := OneFate(q, mask[0]);
      steps, r := RaceRuns(rest, mask[1..]);
      TwoSteps(q, first, second, steps, r);
      steps := [first, second] + steps;
      FatesNext(q.fates, mask);
      InOrderNext(mask);
    }
  }

  /** Whatever is queued, and whichever of it the writer is to receive during a clear, there is a run
      in which it does: each race is one the two threads can have. */
  lemma {:induction false} EveryRaceRuns<T>(q: Queue<T>, mask: seq<bool>) returns (steps: seq<Step<T>>, r: Queue<T>)
    requires Settled(q) && !q.consumer.Gone? && |mask| == |q.channel|
    ensures Reaches(q, steps, r) && Settled(r) && Emptied(q, r, mask, Dropped(q.channel, mask))
  {
    hide Reaches, Inv, Apply, Enabled, Emptied, InOrder;
    var first, clearing := ClearBegins(q);
    var second;
    second, r := RaceRuns(clearing, mask);
    ReachesOn(q, first, clearing, second, r);
    steps := first + second;
    EmptiedSo(q, r, mask);
  }

  /** A clear begins once the writer has released what it holds. */
  lemma {:induction false} ClearBegins<T>(q: Queue<T>) returns (steps: seq<Step<T>>, r: Queue<T>)
    requires Settled(q) && !q.consumer.Gone?
    ensures Reaches(q, steps, r) && Inv(r) && r.consumer.Waiting?
    ensures r == q.(producer := Clearing(0), consumer := Waiting, counter := r.counter)
  {
    var ready := if q.consumer.Holding? then Apply(q, Credit) else q;
    if q.consumer.Holding? {
      StepKeepsInv(q, Credit);
    }
    r := Apply(ready, BeginClear);
    StepKeepsInv(ready, BeginClear);
    hide Inv;
    OneStep(ready, BeginClear, [], r);
    steps := [BeginClear] + [];
    if q.consumer.Holding? {
      OneStep(q, Credit, steps, r);
      steps := [Credit] + steps;
    }
  }

  lemma {:induction false} EmptiedSo<T>(q: Queue<T>, r: Queue<T>, mask: seq<bool>)
    requires Inv(q) && Inv(r) && r.cap == q.cap && r.accepted == q.accepted && r.channel == []
    requires r.fates == q.fates + mask && |mask| == |q.channel|
    requires (q.overtaken ==> r.overtaken) && (!r.overtaken ==> InOrder(mask))
    ensures Emptied(q, r, mask, Dropped(q.channel, mask))
  {
    hide Inv, Kept, Dropped;
    ClearProgress(q, r);
    assert r.fates[|q.fates|..] == mask && q.channel[..|mask|] == q.channel;
    if !r.overtaken {
      InOrderSplits(q.channel, mask);
    }
  }

  lemma {:induction false} OnePush<T>(q: Queue<T>, item: Item<T>) returns (sent: Queue<T>)
    requires Settled(q)
    ensures Enabled(q, ForceReserve(item)) && Enabled(Apply(q, ForceReserve(item)), Send)
    ensures sent == Apply(Apply(q, ForceReserve(item)), Send) && Settled(sent)
    ensures sent == q.(channel := q.channel + [item], accepted := q.accepted + [item],
                       counter := q.counter + item.bytes)
  {
    StepKeepsInv(q, ForceReserve(item));
    StepKeepsInv(Apply(q, ForceReserve(item)), Send);
    hide Inv;
    sent := Apply(Apply(q, ForceReserve(item)), Send);
  }

  /** Items queued one after another regardless of the cap, the writer taking none meanwhile. */
  lemma {:induction false} PushesRun<T>(q: Queue<T>, items: seq<Item<T>>) returns (steps: seq<Step<T>>, r: Queue<T>)
    requires Settled(q)
    ensures Reaches(q, steps, r) && Settled(r)
    ensures r == q.(channel := q.channel + items, accepted := q.accepted + items, counter := q.counter + Weight(items))
    decreases |items|
  {
    hide Settled, Enabled, Apply;
    if items == [] {
      steps, r := [], q;
      assert q.channel + items == q.channel && q.accepted + items == q.accepted;
    } else {
      hide Reaches;
      var sent := OnePush(q, items[0]);
      steps, r := PushesRun(sent, items[1..]);
      TwoSteps(q, ForceReserve(items[0]), Send, steps, r);
      steps := [ForceReserve(items[0]), Send] + steps;
      assert [items[0]] + items[1..] == items;
      Regroup(q.channel, [items[0]], items[1..]);
      Regroup(q.accepted, [items[0]], items[1..]);
    }
  }

  lemma {:induction false} ReachesOn<T>(q: Queue<T>, first: seq<Step<T>>, between: Queue<T>, second: seq<Step<T>>,
          r: Queue<T>)
    requires Reaches(q, first, between) && Reaches(between, second, r)
    ensures Reaches(q, first + second, r)
  {
    RunsOfConcat(q, first, second);
  }

  /** A resync in a run of the client's outbox, step by step. */
  ghost predicate Raced(before: Client, after: Client, snapshot: Frame, owed: seq<Frame>, exits: seq<Frame>) {
    Resynced(before, after, snapshot, owed, exits) && exists steps :: Reaches(before.outbox, steps, after.outbox)
  }

  /** Any race with a resync can happen. */
  lemma {:induction false} EveryRaceResyncs(before: Client, mask: seq<bool>, snapshot: Frame, owed: seq<Frame>,
          exits: seq<Frame>)
    returns (after: Client)
    requires Settled(before.outbox) && !before.outbox.consumer.Gone? && |mask| == |before.outbox.channel|
    ensures Raced(before, after, snapshot, owed, exits) && Race(before, after) == mask
  {
    hide Settled, Reaches, Emptied, Resynced, Dropped, WarningsIn, Weight;
    var q := before.outbox;
    var first, emptied := EveryRaceRuns(q, mask);
    var tail := WarningsIn(Dropped(q.channel, mask)) + owed + exits;
    var second, r := PushesRun(emptied, [snapshot] + tail);
    ReachesOn(q, first, emptied, second, r);
    after := before.(outbox := r);
    ResyncedSo(before, mask, emptied, after, snapshot, owed, exits);
  }

  lemma {:induction false} ResyncedSo(before: Client, mask: seq<bool>, emptied: Queue<Message>, after: Client,
                                      snapshot: Frame, owed: seq<Frame>, exits: seq<Frame>)
    requires Settled(before.outbox) && Settled(after.outbox) && |mask| == |before.outbox.channel|
    requires after.role == before.role && Emptied(before.outbox, emptied, mask, Dropped(before.outbox.channel, mask))
    requires after.outbox.consumed == emptied.consumed && after.outbox.fates == emptied.fates
    requires after.outbox.overtaken == emptied.overtaken
    requires var tail := WarningsIn(Dropped(before.outbox.channel, mask)) + owed + exits;
             after.outbox.channel == emptied.channel + ([snapshot] + tail)
    ensures Resynced(before, after, snapshot, owed, exits) && Race(before, after) == mask
  {
    var q := before.outbox;
    assert |q.accepted| == |q.fates| + |q.channel|;
    hide Inv, Kept, Dropped, WarningsIn;
    var tail := WarningsIn(Dropped(q.channel, mask)) + owed + exits;
    assert Race(before, after) == mask;
    PushedAfter(emptied.consumed, snapshot, tail);
  }

  lemma PushedAfter(consumed: seq<Frame>, snapshot: Frame, tail: seq<Frame>)
    ensures consumed + ([] + ([snapshot] + tail)) == consumed + [snapshot] + tail
  {
  }

  // ----- a stream some frames are missing from -----

  /** Frame `i` took the stream further along the log. */
  ghost predicate Advances(s: seq<Frame>, i: nat)
    requires i < |s|
  {
    Placed(s[i]) && End(s[..i]) != Stop(s[i])
  }

  /** A frame that moved on along the log was dropped ahead of frame `j`, and none kept since
      says where the stream is. */
  ghost predicate Lost(s: seq<Frame>, mask: seq<bool>, j: nat)
    requires |s| == |mask| && j <= |s|
  {
    exists i :: 0 <= i < j && !mask[i] && Advances(s, i) && Unplaced(s, mask, i, j)
  }

  ghost predicate Unplaced(s: seq<Frame>, mask: seq<bool>, i: nat, j: nat)
    requires |s| == |mask| && j <= |s|
  {
    forall k :: i < k < j && mask[k] ==> !Placed(s[k])
  }

  /** What is kept of the first `j` frames has come as far as all of them did, unless one was lost. */
  lemma {:induction false} KeptReaches(s: seq<Frame>, mask: seq<bool>, j: nat)
    requires |s| == |mask| && j <= |s| && Forward(s)
    ensures End(Kept(s[..j], mask[..j])) <= End(s[..j])
    ensures End(Kept(s[..j], mask[..j])) == End(s[..j]) <==> !Lost(s, mask, j)
    decreases j
  {
    if j > 0 {
      hide Kept, Forward, Lost, Unplaced, End;
      var i := j - 1;
      KeptReaches(s, mask, i);
      KeptNext(s, mask, i);
      assert s[..j] == s[..i] + [s[i]];
      EndOfAppend(s[..i], s[i]);
      EndOfAppend(Kept(s[..i], mask[..i]), s[i]);
      if Placed(s[i]) {
        EndBefore(s, i);
      }
      if mask[i] && Placed(s[i]) {
        FoundAgain(s, mask, i);
      } else if !mask[i] && Advances(s, i) {
        LostThere(s, mask, i);
      } else {
        LostSoFar(s, mask, i);
      }
    }
  }

  lemma {:induction false} FoundAgain(s: seq<Frame>, mask: seq<bool>, i: nat)
    requires |s| == |mask| && i < |s| && mask[i] && Placed(s[i])
    ensures !Lost(s, mask, i + 1)
  {
    assert forall k :: 0 <= k < i + 1 && !mask[k] ==> !Unplaced(s, mask, k, i + 1);
  }

  lemma {:induction false} LostThere(s: seq<Frame>, mask: seq<bool>, i: nat)
    requires |s| == |mask| && i < |s| && !mask[i] && Advances(s, i)
    ensures Lost(s, mask, i + 1)
  {
    assert Unplaced(s, mask, i, i + 1);
  }

  lemma {:induction false} LostSoFar(s: seq<Frame>, mask: seq<bool>, i: nat)
    requires |s| == |mask| && i < |s|
    requires if mask[i] then !Placed(s[i]) else !Advances(s, i)
    ensures Lost(s, mask, i + 1) <==> Lost(s, mask, i)
  {
    if Lost(s, mask, i) {
      var k :| 0 <= k < i && !mask[k] && Advances(s, k) && Unplaced(s, mask, k, i);
      assert Unplaced(s, mask, k, i + 1);
    }
    if Lost(s, mask, i + 1) {
      var k :| 0 <= k < i + 1 && !mask[k] && Advances(s, k) && Unplaced(s, mask, k, i + 1);
      assert Unplaced(s, mask, k, i);
    }
  }

  lemma {:induction false} EndOfAppend(s: seq<Frame>, f: Frame)
    ensures End(s + [f]) == if Placed(f) then Stop(f) else End(s)
  {
    assert (s + [f])[..|s|] == s;
  }

  lemma {:induction false} EndBefore(s: seq<Frame>, i: nat)
    requires Forward(s) && i < |s| && Placed(s[i])
    ensures End(s[..i]) <= Start(s[i])
  {
    LastPlace(s, i, i);
  }

  lemma {:induction false} LastPlace(s: seq<Frame>, n: nat, i: nat)
    requires Forward(s) && n <= i < |s| && Placed(s[i])
    ensures End(s[..n]) <= Start(s[i])
    decreases n
  {
    if n > 0 {
      assert s[..n] == s[..n - 1] + [s[n - 1]];
      EndOfAppend(s[..n - 1], s[n - 1]);
      LastPlace(s, n - 1, i);
    }
  }

  /** Of the first `n` frames no output is kept whose place was lost. */
  ghost predicate PlacesKept(s: seq<Frame>, mask: seq<bool>, n: nat)
    requires |s| == |mask| && n <= |s|
  {
    forall j :: 0 <= j < n && mask[j] && s[j].value.Output? ==> !Lost(s, mask, j)
  }

  /** A tiled stream that frames are dropped from stays tiled exactly when no output is kept whose
      place was lost. */
  lemma {:induction false} TiledExactlyWhen(s: seq<Frame>, mask: seq<bool>)
    requires |s| == |mask| && Forward(s) && Tiled(s)
    ensures Tiled(Kept(s, mask)) <==> PlacesKept(s, mask, |s|)
  {
    hide Forward, Tiled, Kept, PlacesKept;
    TiledSoFar(s, mask, |s|);
    assert s[..|s|] == s && mask[..|s|] == mask;
  }

  lemma {:induction false} TiledSoFar(s: seq<Frame>, mask: seq<bool>, n: nat)
    requires |s| == |mask| && n <= |s| && Forward(s) && Tiled(s)
    ensures Tiled(Kept(s[..n], mask[..n])) <==> PlacesKept(s, mask, n)
    decreases n
  {
    hide Forward, Tiled, Kept, PlacesKept, Lost;
    if n == 0 {
      NoneDropped(s, mask);
    } else {
      TiledSoFar(s, mask, n - 1);
      TiledNext(s, mask, n - 1);
      PlacesKeptNext(s, mask, n - 1);
    }
  }

  lemma NoneDropped(s: seq<Frame>, mask: seq<bool>)
    requires |s| == |mask|
    ensures Tiled(Kept(s[..0], mask[..0])) && PlacesKept(s, mask, 0)
    ensures ExitsShown(Kept(s[..0], mask[..0])) && ScreensKept(s, mask, 0)
  {
  }

  lemma {:induction false} PlacesKeptNext(s: seq<Frame>, mask: seq<bool>, j: nat)
    requires |s| == |mask| && j < |s|
    ensures PlacesKept(s, mask, j + 1) <==>
      PlacesKept(s, mask, j) && (mask[j] && s[j].value.Output? ==> !Lost(s, mask, j))
  {
    hide Lost;
  }

  lemma {:induction false} KeptNext(s: seq<Frame>, mask: seq<bool>, j: nat)
    requires |s| == |mask| && j < |s|
    ensures var kept := Kept(s[..j], mask[..j]);
            Kept(s[..j + 1], mask[..j + 1]) == if mask[j] then kept + [s[j]] else kept
  {
    hide Kept;
    assert s[..j + 1] == s[..j] + [s[j]] && mask[..j + 1] == mask[..j] + [mask[j]];
    Extend(s[..j], mask[..j], s[j], mask[j]);
  }

  lemma {:induction false} TiledNext(s: seq<Frame>, mask: seq<bool>, j: nat)
    requires |s| == |mask| && j < |s| && Forward(s) && Tiled(s)
    ensures Tiled(Kept(s[..j + 1], mask[..j + 1])) <==>
      Tiled(Kept(s[..j], mask[..j])) && (mask[j] && s[j].value.Output? ==> !Lost(s, mask, j))
  {
    hide Forward, Tiled, Kept, Lost, End;
    KeptNext(s, mask, j);
    KeptReaches(s, mask, j);
    TiledOfAppend(Kept(s[..j], mask[..j]), s[j]);
    Prefix(s, j + 1);
    assert s[..j + 1] == s[..j] + [s[j]];
    TiledOfAppend(s[..j], s[j]);
  }

  lemma {:induction false} TiledOfAppend(s: seq<Frame>, f: Frame)
    ensures Tiled(s + [f]) <==> Tiled(s) && (f.value.Output? ==> End(s) == f.value.at)
  {
    assert (s + [f])[..|s|] == s;
  }

  lemma {:induction false} ShownOfAppend(s: seq<Frame>, f: Frame)
    ensures ShowsScreen(s + [f]) <==> f.value.Snapshot? || (Quiet(f) && ShowsScreen(s))
    ensures ExitsShown(s + [f]) <==> ExitsShown(s) && (f.value.Exited? ==> ShowsScreen(s))
  {
    assert (s + [f])[..|s|] == s;
  }

  /** A kept snapshot comes ahead of frame `j`, with nothing kept between them but warnings and exits. */
  ghost predicate StillShown(s: seq<Frame>, mask: seq<bool>, j: nat)
    requires |s| == |mask| && j <= |s|
  {
    exists i :: 0 <= i < j && mask[i] && s[i].value.Snapshot? && OnlyQuiet(s, mask, i, j)
  }

  ghost predicate OnlyQuiet(s: seq<Frame>, mask: seq<bool>, i: nat, j: nat)
    requires |s| == |mask| && j <= |s|
  {
    forall k :: i < k < j && mask[k] ==> Quiet(s[k])
  }

  lemma {:induction false} KeptShows(s: seq<Frame>, mask: seq<bool>, j: nat)
    requires |s| == |mask| && j <= |s|
    ensures ShowsScreen(Kept(s[..j], mask[..j])) <==> StillShown(s, mask, j)
    decreases j
  {
    if j > 0 {
      hide Kept, ShowsScreen, StillShown;
      var i := j - 1;
      KeptShows(s, mask, i);
      KeptNext(s, mask, i);
      ShownOfAppend(Kept(s[..i], mask[..i]), s[i]);
      if mask[i] && !Quiet(s[i]) {
        ShownThere(s, mask, i);
      } else {
        ShownSoFar(s, mask, i);
      }
    }
  }

  lemma {:induction false} ShownThere(s: seq<Frame>, mask: seq<bool>, i: nat)
    requires |s| == |mask| && i < |s| && mask[i] && !Quiet(s[i])
    ensures StillShown(s, mask, i + 1) <==> s[i].value.Snapshot?
  {
    var j := i + 1;
    if s[i].value.Snapshot? {
      assert OnlyQuiet(s, mask, i, j);
    } else {
      assert forall k :: 0 <= k < i ==> !OnlyQuiet(s, mask, k, j);
    }
  }

  lemma {:induction false} ShownSoFar(s: seq<Frame>, mask: seq<bool>, i: nat)
    requires |s| == |mask| && i < |s| && (mask[i] ==> Quiet(s[i]))
    ensures StillShown(s, mask, i + 1) <==> StillShown(s, mask, i)
  {
    if StillShown(s, mask, i) {
      var k :| 0 <= k < i && mask[k] && s[k].value.Snapshot? && OnlyQuiet(s, mask, k, i);
      assert OnlyQuiet(s, mask, k, i + 1);
    }
    if StillShown(s, mask, i + 1) {
      var k :| 0 <= k < i + 1 && mask[k] && s[k].value.Snapshot? && OnlyQuiet(s, mask, k, i + 1);
      assert OnlyQuiet(s, mask, k, i);
    }
  }

  /** Of the first `n` frames each exit kept still has a screen ahead of it. */
  ghost predicate ScreensKept(s: seq<Frame>, mask: seq<bool>, n: nat)
    requires |s| == |mask| && n <= |s|
  {
    forall j :: 0 <= j < n && mask[j] && s[j].value.Exited? ==> StillShown(s, mask, j)
  }

  /** Frames dropped from a stream leave each exit right after a screen exactly when each exit kept
      still has one ahead of it. */
  lemma {:induction false} ExitsShownExactlyWhen(s: seq<Frame>, mask: seq<bool>)
    requires |s| == |mask|
    ensures ExitsShown(Kept(s, mask)) <==> ScreensKept(s, mask, |s|)
  {
    hide ExitsShown, Kept, ScreensKept;
    ExitsShownSoFar(s, mask, |s|);
    assert s[..|s|] == s && mask[..|s|] == mask;
  }

  lemma {:induction false} ExitsShownSoFar(s: seq<Frame>, mask: seq<bool>, n: nat)
    requires |s| == |mask| && n <= |s|
    ensures ExitsShown(Kept(s[..n], mask[..n])) <==> ScreensKept(s, mask, n)
    decreases n
  {
    hide Kept, ScreensKept, ExitsShown, ShowsScreen, StillShown;
    if n == 0 {
      NoneDropped(s, mask);
    } else {
      var j := n - 1;
      ExitsShownSoFar(s, mask, j);
      KeptNext(s, mask, j);
      ShownOfAppend(Kept(s[..j], mask[..j]), s[j]);
      KeptShows(s, mask, j);
      ScreensKeptNext(s, mask, j);
    }
  }

  lemma {:induction false} ScreensKeptNext(s: seq<Frame>, mask: seq<bool>, j: nat)
    requires |s| == |mask| && j < |s|
    ensures ScreensKept(s, mask, j + 1) <==>
      ScreensKept(s, mask, j) && (mask[j] && s[j].value.Exited? ==> StillShown(s, mask, j))
  {
    hide StillShown;
  }

  /** A resync keeps every warning ahead of the exit exactly when the writer has taken no exit or
      no warning is left to send. */
  lemma {:induction false} WarnsFirstExactlyWhen(base: seq<Frame>, snapshot: Frame, warnings: seq<Frame>,
          exits: seq<Frame>)
    requires WarnsFirst(base) && snapshot.value.Snapshot? && AllWarnings(warnings)
    requires forall i :: 0 <= i < |exits| ==> exits[i].value.Exited?
    ensures WarnsFirst(base + [snapshot] + (warnings + exits)) <==> NoExit(base) || warnings == []
  {
    var s := base + [snapshot] + (warnings + exits);
    if !NoExit(base) && warnings != [] {
      var i :| 0 <= i < |base| && base[i].value.Exited?;
      assert s[i] == base[i] && s[|base| + 1] == warnings[0];
    }
  }

  // ----- what that makes of a resync -----

  /** Which of the frames queued or taken before a resync the writer ends up with. */
  ghost function Received(before: Client, after: Client): (mask: seq<bool>)
    requires Settled(before.outbox) && |before.outbox.accepted| <= |after.outbox.fates|
    ensures |mask| == |Frames(before)|
  {
    seq(|before.outbox.consumed|, i => true) + Race(before, after)
  }

  lemma {:induction false} KeptAll<T>(s: seq<T>, mask: seq<bool>)
    requires |s| == |mask| && forall i :: 0 <= i < |mask| ==> mask[i]
    ensures Kept(s, mask) == s && Dropped(s, mask) == []
    decreases |s|
  {
    if s != [] {
      KeptAll(s[..|s| - 1], mask[..|s| - 1]);
    }
  }

  lemma {:induction false} KeptOfRace(before: Client, after: Client)
    requires Settled(before.outbox) && |before.outbox.accepted| <= |after.outbox.fates|
    ensures Kept(Frames(before), Received(before, after))
         == before.outbox.consumed + Kept(before.outbox.channel, Race(before, after))
  {
    hide Inv;
    var all := seq(|before.outbox.consumed|, i => true);
    Concat(before.outbox.consumed, all, before.outbox.channel, Race(before, after));
    KeptAll(before.outbox.consumed, all);
  }

  lemma {:induction false} WarnsFirstWhenThinned(s: seq<Frame>, mask: seq<bool>)
    requires |s| == |mask| && WarnsFirst(s)
    ensures WarnsFirst(Kept(s, mask))
    decreases |s|
  {
    if s != [] {
      var last := |s| - 1;
      var front, kept := s[..last], Kept(s[..last], mask[..last]);
      WarnsFirstWhenThinned(front, mask[..last]);
      forall i | 0 <= i < |kept| && kept[i].value.Exited? && mask[last] ensures !s[last].value.Warning? {
        assert ([] + kept)[i] == kept[i];
        var j := Origin([], front, mask[..last], i);
        assert ([] + front)[j] == front[j] == s[j];
      }
    }
  }

  /** What a resync sends: a snapshot, the warnings owed, the exit. */
  ghost predicate Sendable(snapshot: Frame, owed: seq<Frame>, exits: seq<Frame>) {
    snapshot.value.Snapshot? && AllWarnings(owed) && forall i :: 0 <= i < |exits| ==> exits[i].value.Exited?
  }

  /** A resync leaves the order of a stream as the frames its writer received have it, and warnings
      ahead of exits unless it received an exit and is still to be sent a warning. */
  lemma {:induction false} ResyncOrders(before: Client, after: Client, snapshot: Frame, owed: seq<Frame>,
          exits: seq<Frame>)
    requires Resynced(before, after, snapshot, owed, exits) && Sendable(snapshot, owed, exits)
    ensures |before.outbox.accepted| <= |after.outbox.fates|
    ensures var kept := Kept(Frames(before), Received(before, after));
            && (Tiled(Frames(after)) <==> Tiled(kept))
            && (ExitsShown(Frames(after)) <==> ExitsShown(kept))
            && (WarnsFirst(Frames(before)) ==>
                  (WarnsFirst(Frames(after)) <==>
                     NoExit(kept) || WarningsIn(Dropped(before.outbox.channel, Race(before, after))) + owed == []))
  {
    hide Inv, WarningsIn, Kept, Dropped;
    var s, mask := Frames(before), Received(before, after);
    KeptOfRace(before, after);
    var warnings := WarningsIn(Dropped(before.outbox.channel, Race(before, after))) + owed;
    QuietlyAfter(Kept(s, mask), snapshot, warnings + exits);
    if WarnsFirst(s) {
      WarnsFirstWhenThinned(s, mask);
      WarnsFirstExactlyWhen(Kept(s, mask), snapshot, warnings, exits);
    }
  }

  lemma {:induction false} QuietlyAfter(base: seq<Frame>, snapshot: Frame, tail: seq<Frame>)
    requires snapshot.value.Snapshot? && forall i :: 0 <= i < |tail| ==> Quiet(tail[i])
    ensures Tiled(base + [snapshot] + tail) <==> Tiled(base)
    ensures ExitsShown(base + [snapshot] + tail) <==> ExitsShown(base)
    ensures ShowsScreen(base + [snapshot] + tail)
  {
    var s := base + [snapshot] + tail;
    var t: Terminal<int> := Terminal(size => 0, screen => Size(0, 0), (screen, bytes) => Processed(0),
                                     (screen, bytes) => [], (screen, size) => 0, screen => [], (size, repaint) => 0);
    ResyncShows(t, base, snapshot, tail);
    Prefix(s, |base|);
    assert s[..|base|] == base;
  }

  // ----- what may be queued -----

  /** The mask of a whole stream that has all of what was taken and the rest as `mask` says. */
  ghost predicate KeepsTaken(before: Client, mask: seq<bool>) {
    |mask| == |Frames(before)| && forall i :: 0 <= i < |before.outbox.consumed| ==> mask[i]
  }

  /** Whatever mask keeps all of what was taken, there is a run of a resync in which the writer receives
      just that. */
  lemma {:induction false} EveryMaskHappens(before: Client, mask: seq<bool>, snapshot: Frame, owed: seq<Frame>,
          exits: seq<Frame>)
    returns (after: Client)
    requires Settled(before.outbox) && !before.outbox.consumer.Gone? && KeepsTaken(before, mask)
    ensures Raced(before, after, snapshot, owed, exits)
    ensures Received(before, after) == mask && Race(before, after) == mask[|before.outbox.consumed|..]
  {
    var n := |before.outbox.consumed|;
    after := EveryRaceResyncs(before, mask[n..], snapshot, owed, exits);
    assert mask == mask[..n] + mask[n..];
    assert mask[..n] == seq(n, i => true);
  }

  /** Output is queued behind a queued frame that moves on along the log. */
  ghost predicate OutputBehind(before: Client) {
    exists i, j :: |before.outbox.consumed| <= i < j < |Frames(before)|
      && Advances(Frames(before), i) && Frames(before)[j].value.Output?
  }

  /** A supervisor's stream stays tiled through a resync, however its writer runs, exactly when no
      output is queued behind a queued frame that moves on along the log. */
  lemma {:induction false} TilingSurvivesExactlyWhen(before: Client, snapshot: Frame, owed: seq<Frame>,
          exits: seq<Frame>)
    requires Settled(before.outbox) && !before.outbox.consumer.Gone? && Sendable(snapshot, owed, exits)
    requires Forward(Frames(before)) && Tiled(Frames(before))
    ensures (forall after :: Raced(before, after, snapshot, owed, exits) ==> Tiled(Frames(after))) <==>
      !OutputBehind(before)
    ensures !OutputBehind(before) ==>
      forall after :: Resynced(before, after, snapshot, owed, exits) ==> Tiled(Frames(after))
  {
    hide Inv, Resynced, Tiled, Forward, Advances, Kept;
    var s := Frames(before);
    if OutputBehind(before) {
      var i, j :| |before.outbox.consumed| <= i < j < |s| && Advances(s, i) && s[j].value.Output?;
      var mask := DropBetween(before, i, j);
      var after := EveryMaskHappens(before, mask, snapshot, owed, exits);
      ResyncOrders(before, after, snapshot, owed, exits);
      TiledExactlyWhen(s, mask);
    } else {
      forall after | Resynced(before, after, snapshot, owed, exits) ensures Tiled(Frames(after)) {
        TilingSurvives(before, after, snapshot, owed, exits);
      }
    }
  }

  lemma {:induction false} TilingSurvives(before: Client, after: Client, snapshot: Frame, owed: seq<Frame>,
          exits: seq<Frame>)
    requires Resynced(before, after, snapshot, owed, exits) && Sendable(snapshot, owed, exits)
    requires Forward(Frames(before)) && Tiled(Frames(before)) && !OutputBehind(before)
    ensures Tiled(Frames(after))
  {
    hide Inv, Tiled, Forward, Kept, Dropped, WarningsIn, OutputBehind;
    ResyncOrders(before, after, snapshot, owed, exits);
    NoneLost(before, after);
    TiledExactlyWhen(Frames(before), Received(before, after));
  }

  /** Dropping all from frame `i` to just ahead of frame `j` loses the place of frame `j`. */
  lemma {:induction false} DropBetween(before: Client, i: nat, j: nat) returns (mask: seq<bool>)
    requires |before.outbox.consumed| <= i < j < |Frames(before)| && Advances(Frames(before), i)
    ensures KeepsTaken(before, mask) && mask[j] && Lost(Frames(before), mask, j)
  {
    hide Advances;
    mask := seq(|Frames(before)|, k => k < i || k >= j);
    assert Unplaced(Frames(before), mask, i, j);
  }

  lemma {:induction false} NoneLost(before: Client, after: Client)
    requires Settled(before.outbox) && |before.outbox.accepted| <= |after.outbox.fates| && !OutputBehind(before)
    ensures PlacesKept(Frames(before), Received(before, after), |Frames(before)|)
  {
    hide Inv, Advances, Unplaced;
    var s, mask := Frames(before), Received(before, after);
    assert forall i :: 0 <= i < |before.outbox.consumed| ==> mask[i];
  }

  /** A screen the writer has taken already comes ahead of frame `j`, with only screens, warnings and
      exits between them. */
  ghost predicate ScreenTaken(before: Client, j: nat)
    requires j <= |Frames(before)|
  {
    exists i :: 0 <= i < |before.outbox.consumed| && i < j && ScreenFrom(Frames(before), i, j)
  }

  ghost predicate ScreenFrom(s: seq<Frame>, i: nat, j: nat)
    requires i < j <= |s|
  {
    s[i].value.Snapshot? && forall k :: i < k < j ==> Quiet(s[k]) || s[k].value.Snapshot?
  }

  /** An exit is queued whose screen the writer may yet lose. */
  ghost predicate ScreenAtRisk(before: Client) {
    exists j :: |before.outbox.consumed| <= j < |Frames(before)|
      && Frames(before)[j].value.Exited? && !ScreenTaken(before, j)
  }

  /** Each exit keeps its screen ahead of it through a resync, however the writer runs, exactly when
      for every exit queued that screen has been taken already. */
  lemma {:induction false} ScreensSurviveExactlyWhen(before: Client, snapshot: Frame, owed: seq<Frame>,
          exits: seq<Frame>)
    requires Settled(before.outbox) && !before.outbox.consumer.Gone? && Sendable(snapshot, owed, exits)
    requires ExitsShown(Frames(before))
    ensures (forall after :: Raced(before, after, snapshot, owed, exits) ==> ExitsShown(Frames(after))) <==>
      !ScreenAtRisk(before)
    ensures !ScreenAtRisk(before) ==>
      forall after :: Resynced(before, after, snapshot, owed, exits) ==> ExitsShown(Frames(after))
  {
    hide Inv, Resynced, ExitsShown, ScreenTaken, Kept;
    var s := Frames(before);
    if ScreenAtRisk(before) {
      var j :| |before.outbox.consumed| <= j < |s| && s[j].value.Exited? && !ScreenTaken(before, j);
      var mask := DropScreens(before, j);
      var after := EveryMaskHappens(before, mask, snapshot, owed, exits);
      ResyncOrders(before, after, snapshot, owed, exits);
      ExitsShownExactlyWhen(s, mask);
    } else {
      forall after | Resynced(before, after, snapshot, owed, exits) ensures ExitsShown(Frames(after)) {
        ScreensSurvive(before, after, snapshot, owed, exits);
      }
    }
  }

  lemma {:induction false} ScreensSurvive(before: Client, after: Client, snapshot: Frame, owed: seq<Frame>,
          exits: seq<Frame>)
    requires Resynced(before, after, snapshot, owed, exits) && Sendable(snapshot, owed, exits)
    requires ExitsShown(Frames(before)) && !ScreenAtRisk(before)
    ensures ExitsShown(Frames(after))
  {
    hide Inv, ExitsShown, Kept, Dropped, WarningsIn, ScreenAtRisk;
    ResyncOrders(before, after, snapshot, owed, exits);
    AllStillShown(before, after);
    ExitsShownExactlyWhen(Frames(before), Received(before, after));
  }

  /** Dropping every queued screen, and keeping one frame that hides the last taken if there is one,
      leaves frame `j` without a screen. */
  lemma {:induction false} DropScreens(before: Client, j: nat) returns (mask: seq<bool>)
    requires |before.outbox.consumed| <= j < |Frames(before)| && !ScreenTaken(before, j)
    ensures KeepsTaken(before, mask) && mask[j] && !StillShown(Frames(before), mask, j)
  {
    var s, n := Frames(before), |before.outbox.consumed|;
    var k := if k :| n <= k < j && !Quiet(s[k]) && !s[k].value.Snapshot? then k else j;
    mask := seq(|s|, x => x < n || x == j || x == k);
    forall i | 0 <= i < j && mask[i] && s[i].value.Snapshot? ensures !OnlyQuiet(s, mask, i, j) {
      assert i < n && !ScreenFrom(s, i, j);
    }
  }

  /** A screen kept with only screens and quiet frames after it still shows. */
  lemma {:induction false} StillShownFrom(s: seq<Frame>, mask: seq<bool>, i: nat, j: nat)
    requires |s| == |mask| && i < j <= |s| && mask[i] && ScreenFrom(s, i, j)
    ensures StillShown(s, mask, j)
    decreases j
  {
    var k := j - 1;
    if mask[k] && s[k].value.Snapshot? {
      assert OnlyQuiet(s, mask, k, j);
    } else {
      StillShownFrom(s, mask, i, k);
      ShownSoFar(s, mask, k);
    }
  }

  lemma {:induction false} AllStillShown(before: Client, after: Client)
    requires Settled(before.outbox) && |before.outbox.accepted| <= |after.outbox.fates|
    requires ExitsShown(Frames(before)) && !ScreenAtRisk(before)
    ensures ScreensKept(Frames(before), Received(before, after), |Frames(before)|)
  {
    hide Inv, ExitsShown, ScreenFrom;
    var s, mask, n := Frames(before), Received(before, after), |before.outbox.consumed|;
    var all := seq(|s|, i => true);
    KeptAll(s, all);
    ExitsShownExactlyWhen(s, all);
    forall j | 0 <= j < |s| && mask[j] && s[j].value.Exited? ensures StillShown(s, mask, j) {
      if j < n {
        var i :| 0 <= i < j && all[i] && s[i].value.Snapshot? && OnlyQuiet(s, all, i, j);
        assert OnlyQuiet(s, mask, i, j);
      } else {
        var i :| 0 <= i < n && i < j && ScreenFrom(s, i, j);
        StillShownFrom(s, mask, i, j);
      }
    }
  }

  /** A warning is still to be sent, or sent again if cleared, with an exit in the stream. */
  ghost predicate WarningAtRisk(before: Client, owed: seq<Frame>) {
    && !NoExit(Frames(before))
    && (owed != [] || exists i :: 0 <= i < |before.outbox.channel| && before.outbox.channel[i].value.Warning?)
  }

  /** Every warning stays ahead of every exit through a resync, however the writer runs, exactly when
      there is no exit in the stream or no warning queued or owed. */
  lemma {:induction false} WarningsSurviveExactlyWhen(before: Client, snapshot: Frame, owed: seq<Frame>,
          exits: seq<Frame>)
    requires Settled(before.outbox) && !before.outbox.consumer.Gone? && Sendable(snapshot, owed, exits)
    requires WarnsFirst(Frames(before))
    ensures (forall after :: Raced(before, after, snapshot, owed, exits) ==> WarnsFirst(Frames(after))) <==>
      !WarningAtRisk(before, owed)
    ensures !WarningAtRisk(before, owed) ==>
      forall after :: Resynced(before, after, snapshot, owed, exits) ==> WarnsFirst(Frames(after))
  {
    hide Inv, Resynced, Kept, Dropped, WarnsFirst;
    if WarningAtRisk(before, owed) {
      var mask := DropWarning(before, owed);
      var after := EveryMaskHappens(before, mask, snapshot, owed, exits);
      ResyncOrders(before, after, snapshot, owed, exits);
    } else {
      forall after | Resynced(before, after, snapshot, owed, exits) ensures WarnsFirst(Frames(after)) {
        WarningsSurvive(before, after, snapshot, owed, exits);
      }
    }
  }

  lemma {:induction false} WarningsSurvive(before: Client, after: Client, snapshot: Frame, owed: seq<Frame>,
          exits: seq<Frame>)
    requires Resynced(before, after, snapshot, owed, exits) && Sendable(snapshot, owed, exits)
    requires WarnsFirst(Frames(before)) && !WarningAtRisk(before, owed)
    ensures WarnsFirst(Frames(after))
  {
    hide Inv, Kept, Dropped, WarningsIn, WarnsFirst, WarningAtRisk;
    ResyncOrders(before, after, snapshot, owed, exits);
    NothingAtRisk(before, after, owed);
  }

  lemma {:induction false} KeptHas<T>(s: seq<T>, mask: seq<bool>, i: nat)
    requires |s| == |mask| && i < |s|
    ensures if mask[i] then s[i] in Kept(s, mask) else s[i] in Dropped(s, mask)
    decreases |s|
  {
    if i < |s| - 1 {
      KeptHas(s[..|s| - 1], mask[..|s| - 1], i);
    }
  }

  lemma {:induction false} WarningsInHas(s: seq<Frame>, f: Frame)
    requires f in s && f.value.Warning?
    ensures WarningsIn(s) != []
    decreases |s|
  {
    if s[|s| - 1] != f {
      WarningsInHas(s[..|s| - 1], f);
    }
  }

  /** Dropping a queued warning alone, if there is one, keeps every exit. */
  lemma {:induction false} DropWarning(before: Client, owed: seq<Frame>) returns (mask: seq<bool>)
    requires WarningAtRisk(before, owed)
    ensures KeepsTaken(before, mask) && !NoExit(Kept(Frames(before), mask))
    ensures WarningsIn(Dropped(before.outbox.channel, mask[|before.outbox.consumed|..])) + owed != []
  {
    hide Kept, Dropped, WarningsIn;
    var s, n, channel := Frames(before), |before.outbox.consumed|, before.outbox.channel;
    var w := if w :| 0 <= w < |channel| && channel[w].value.Warning? then n + w else |s|;
    mask := seq(|s|, x => x != w);
    var e :| 0 <= e < |s| && s[e].value.Exited?;
    KeptExit(s, mask, e);
    if w < |s| {
      KeptHas(channel, mask[n..], w - n);
      WarningsInHas(Dropped(channel, mask[n..]), channel[w - n]);
    }
  }

  lemma {:induction false} KeptExit(s: seq<Frame>, mask: seq<bool>, e: nat)
    requires |s| == |mask| && e < |s| && mask[e] && s[e].value.Exited?
    ensures !NoExit(Kept(s, mask))
  {
    hide Kept;
    KeptHas(s, mask, e);
    var k :| 0 <= k < |Kept(s, mask)| && Kept(s, mask)[k] == s[e];
  }

  lemma {:induction false} NoWarningDropped(s: seq<Frame>, mask: seq<bool>)
    requires |s| == |mask| && forall i :: 0 <= i < |s| ==> !s[i].value.Warning?
    ensures WarningsIn(Dropped(s, mask)) == []
    decreases |s|
  {
    if s != [] {
      var last := |s| - 1;
      NoWarningDropped(s[..last], mask[..last]);
      var dropped := Dropped(s[..last], mask[..last]);
      assert (dropped + [s[last]])[..|dropped|] == dropped;
      assert Dropped(s, mask) == if mask[last] then dropped else dropped + [s[last]];
    }
  }

  lemma {:induction false} NothingAtRisk(before: Client, after: Client, owed: seq<Frame>)
    requires Settled(before.outbox) && |before.outbox.accepted| <= |after.outbox.fates| && !WarningAtRisk(before, owed)
    ensures NoExit(Kept(Frames(before), Received(before, after)))
         || WarningsIn(Dropped(before.outbox.channel, Race(before, after))) + owed == []
  {
    hide Inv, Kept, Dropped, WarningsIn;
    var s, mask := Frames(before), Received(before, after);
    if NoExit(s) {
      assert [] + s == s && [] + Kept(s, mask) == Kept(s, mask);
      NoExitWhenThinned([], s, mask);
    } else {
      NoWarningDropped(before.outbox.channel, Race(before, after));
    }
  }
}

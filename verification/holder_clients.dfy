/** What the holder owes each connected client, and why a push or a resync delivers it. */
module HolderClients {
  import opened ByteQueues
  import opened Basics
  import opened HolderProtocol
  import opened HolderStreams
  import opened Sieve

  /** A connected client: its role once it has said hello, and the frames awaiting its writer. */
  datatype Client = Client(role: Option<Role>, outbox: Queue<Message>)

  /** What the holder has to tell: the child's screen, log and exit, the attach count last
      reported, and whether the child's reader spoke on after the exit, which it never does. */
  datatype Now<S> = Now(screen: S, log: Bytes, exit: Option<ExitOutcome>, told: nat, late: bool)

  /** What a client has been sent and will be sent. */
  function Frames(c: Client): seq<Frame> {
    Stream(c.outbox)
  }

  ghost predicate OnlyRejections(s: seq<Frame>) {
    forall i :: 0 <= i < |s| ==> s[i].value.Rejected?
  }

  ghost predicate NoExit(s: seq<Frame>) {
    forall i :: 0 <= i < |s| ==> !s[i].value.Exited?
  }

  ghost predicate ExitKnown<S>(now: Now<S>, s: seq<Frame>) {
    match now.exit
    case None => NoExit(s)
    case Some(outcome) => Hears(s, Exited(outcome))
  }

  /** What holds of every frame a supervisor was ever sent, in sync or not. Frames its writer
      took past a clear under way (`overtaken`) may leave a gap; none ever goes back. */
  ghost predicate History<S>(now: Now<S>, c: Client) {
    && FromLog(Frames(c), now.log) && Forward(Frames(c))
    && (!c.outbox.overtaken ==> Tiled(Frames(c)) && ExitsShown(Frames(c)))
    && (!c.outbox.overtaken && !now.late ==> WarnsFirst(Frames(c)))
  }

  ghost predicate SupervisorOk<S>(now: Now<S>, c: Client) {
    && History(now, c)
    && End(Frames(c)) == |now.log|
    && Told(Frames(c)) == now.told
    && ExitKnown(now, Frames(c))
  }

  ghost predicate AttachOk<S>(t: Terminal<S>, now: Now<S>, c: Client) {
    && Replay(t, Frames(c)) == Some(now.screen)
    && Warnings(Frames(c)) == 0
    && ExitKnown(now, Frames(c))
  }

  ghost predicate ClientOk<S>(t: Terminal<S>, now: Now<S>, c: Client) {
    && Settled(c.outbox)
    && match c.role
       case None => OnlyRejections(Frames(c))
       case Some(Attach(_)) => AttachOk(t, now, c)
       case Some(Supervisor) => SupervisorOk(now, c)
  }

  /** What a resync starts from: a client that may be far behind. */
  ghost predicate Resyncable<S>(now: Now<S>, c: Client) {
    && Settled(c.outbox) && c.role.Some?
    && (now.exit.None? ==> NoExit(Frames(c)))
    && (c.role.value.Attach? ==> Warnings(Frames(c)) == 0)
    && (c.role.value.Supervisor? ==> History(now, c))
  }

  // ----- what happened to a client's outbox -----

  ghost predicate Appended(before: Client, after: Client, f: Frame) {
    after.role == before.role && Settled(after.outbox) && Pushed(before.outbox, after.outbox, f)
  }

  /** What the writer took of the frames queued before a resync, and what the resync cleared. */
  ghost function Race(before: Client, after: Client): (mask: seq<bool>)
    requires Settled(before.outbox) && |before.outbox.accepted| <= |after.outbox.fates|
    ensures |mask| == |before.outbox.channel|
  {
    after.outbox.fates[|before.outbox.fates|..|before.outbox.accepted|]
  }

  /** The queue was replaced: by the snapshot, the warnings cleared with it, the warning owed,
      then the exit. */
  ghost predicate Resynced(before: Client, after: Client, snapshot: Frame, owed: seq<Frame>, exits: seq<Frame>)
  {
    && after.role == before.role && Settled(before.outbox) && Settled(after.outbox)
    && before.outbox.fates <= after.outbox.fates && |before.outbox.accepted| <= |after.outbox.fates|
    && var kept := Kept(before.outbox.channel, Race(before, after));
       var cleared := Dropped(before.outbox.channel, Race(before, after));
       && Frames(after) ==
            before.outbox.consumed + kept + [snapshot] + (WarningsIn(cleared) + owed + exits)
       && (before.outbox.overtaken ==> after.outbox.overtaken)
       && (!after.outbox.overtaken ==> before.outbox.channel == kept + cleared)
  }

  /** A frame reached the client: queued behind the others, or, when there was no room for it, in their
      place by a resync. */
  ghost predicate Reached(before: Client, after: Client, f: Frame, snapshot: Frame, exits: seq<Frame>) {
    Appended(before, after, f) || (Overfull(before.outbox, f) && Resynced(before, after, snapshot, [], exits))
  }

  /** The snapshot and exit a resync sends, as things stand. */
  ghost predicate SnapshotOf<S>(t: Terminal<S>, now: Now<S>, f: Frame) {
    && f.value.Snapshot?
    && f.value.repaint == t.repaint(now.screen) && f.value.size == t.sizeOf(now.screen)
    && f.value.logEnd == |now.log|
  }

  ghost predicate ExitsOf<S>(now: Now<S>, exits: seq<Frame>) {
    match now.exit
    case None => exits == []
    case Some(outcome) => |exits| == 1 && exits[0].value == Exited(outcome)
  }

  ghost predicate AllWarnings(s: seq<Frame>) {
    forall i :: 0 <= i < |s| ==> s[i].value.Warning?
  }

  // ----- a resync -----

  lemma {:induction false} AllWarningsCount(s: seq<Frame>)
    requires AllWarnings(s)
    ensures Warnings(s) == |s|
    decreases |s|
  {
    if s != [] {
      AllWarningsCount(s[..|s| - 1]);
    }
  }

  lemma {:induction false} NoWarnings(s: seq<Frame>)
    requires forall i :: 0 <= i < |s| ==> !s[i].value.Warning?
    ensures Warnings(s) == 0
    decreases |s|
  {
    if s != [] {
      NoWarnings(s[..|s| - 1]);
    }
  }

  lemma {:induction false} NoPlaces(s: seq<Frame>, n: nat)
    requires OnlyRejections(s) && n <= |s|
    ensures Tiled(s[..n]) && ExitsShown(s[..n])
    ensures Tiled(s) && ExitsShown(s)
    decreases |s|, n
  {
    if s != [] {
      NoPlaces(s[..|s| - 1], 0);
    }
    Prefix(s, n);
  }

  /** No resync loses or repeats a warning. */
  lemma {:induction false} ResyncKeepsWarnings(before: Client, after: Client, snapshot: Frame, owed: seq<Frame>,
          exits: seq<Frame>)
    requires Resynced(before, after, snapshot, owed, exits)
    requires snapshot.value.Snapshot? && AllWarnings(owed)
    requires forall i :: 0 <= i < |exits| ==> exits[i].value.Exited?
    ensures Warnings(Frames(after)) == Warnings(Frames(before)) + |owed|
  {
    var consumed, channel := before.outbox.consumed, before.outbox.channel;
    var kept := Kept(channel, Race(before, after));
    var cleared := Dropped(channel, Race(before, after));
    WarningsOfConcat(consumed + kept + [snapshot], WarningsIn(cleared) + owed + exits);
    WarningsOfConcat(WarningsIn(cleared) + owed, exits);
    WarningsOfConcat(WarningsIn(cleared), owed);
    WarningsOfConcat(consumed + kept, [snapshot]);
    WarningsOfConcat(consumed, kept);
    WarningsOfConcat(consumed, channel);
    WarningsConserved(channel, Race(before, after));
    WarningsInCounts(cleared);
    AllWarningsCount(owed);
    NoWarnings(exits);
    NoWarnings([snapshot]);
  }

  /** After a resync the stream shows the screen, ends at the log's end and carries the count of
      its snapshot, whatever the writer took or the clear discarded. */
  lemma {:induction false} ResyncShows<S>(t: Terminal<S>, base: seq<Frame>, snapshot: Frame, tail: seq<Frame>)
    requires snapshot.value.Snapshot? && forall i :: 0 <= i < |tail| ==> Quiet(tail[i])
    ensures var s := base + [snapshot] + tail;
            && Replay(t, s) == Some(t.rebuild(snapshot.value.size, snapshot.value.repaint))
            && End(s) == snapshot.value.logEnd && Told(s) == snapshot.value.attached
            && ShowsScreen(s)
            && (Tiled(base) ==> Tiled(s)) && (ExitsShown(base) ==> ExitsShown(s))
  {
    Append(t, base, snapshot);
    QuietTail(t, base + [snapshot], tail);
  }

  lemma {:induction false} ResyncKnowsExit<S>(now: Now<S>, base: seq<Frame>, snapshot: Frame, warnings: seq<Frame>,
          exits: seq<Frame>)
    requires snapshot.value.Snapshot? && AllWarnings(warnings) && ExitsOf(now, exits)
    requires now.exit.None? ==> NoExit(base)
    ensures ExitKnown(now, base + [snapshot] + (warnings + exits))
  {
    var s := base + [snapshot] + (warnings + exits);
    if now.exit.Some? {
      assert s[|s| - 1] == exits[0];
    }
  }

  lemma ResyncKeepsHistory<S>(now: Now<S>, base: seq<Frame>, snapshot: Frame, tail: seq<Frame>)
    requires FromLog(base, now.log) && Forward(base)
    requires snapshot.value.Snapshot? && snapshot.value.logEnd == |now.log|
    requires forall i :: 0 <= i < |tail| ==> Quiet(tail[i])
    ensures var s := base + [snapshot] + tail; FromLog(s, now.log) && Forward(s)
  {
  }

  lemma {:induction false} ResyncWarnsFirst(prefix: seq<Frame>, cleared: seq<Frame>, snapshot: Frame,
          owed: seq<Frame>, exits: seq<Frame>)
    requires WarnsFirst(prefix + cleared) && snapshot.value.Snapshot? && AllWarnings(owed)
    requires forall i :: 0 <= i < |exits| ==> exits[i].value.Exited?
    requires owed != [] ==> NoExit(prefix)
    ensures WarnsFirst(prefix + [snapshot] + (WarningsIn(cleared) + owed + exits))
  {
    var kept := WarningsIn(cleared);
    if kept != [] {
      var k :| 0 <= k < |cleared| && cleared[k] == kept[0];
      assert (prefix + cleared)[|prefix| + k].value.Warning?;
      forall i | 0 <= i < |prefix| ensures !prefix[i].value.Exited? {
        assert (prefix + cleared)[i] == prefix[i];
      }
    }
    var s := prefix + [snapshot] + (kept + owed + exits);
    forall i, j | 0 <= i < j < |s| && s[i].value.Exited? ensures !s[j].value.Warning? {
      if j < |prefix| {
        assert (prefix + cleared)[i] == s[i] && (prefix + cleared)[j] == s[j];
      }
    }
  }

  /** A resync puts any client in sync, however far behind, whatever its writer takes meanwhile:
      an attach client's screen is the holder's, a supervisor's place is the log's end. */
  lemma {:induction false} ResyncSyncs<S(!new)>(t: Terminal<S>, now: Now<S>, before: Client, after: Client,
                       snapshot: Frame, owed: seq<Frame>, exits: seq<Frame>)
    requires Lawful(t) && Resyncable(now, before)
    requires Resynced(before, after, snapshot, owed, exits)
    requires SnapshotOf(t, now, snapshot) && ExitsOf(now, exits) && AllWarnings(owed)
    requires before.role.value.Attach? ==> owed == []
    requires before.role.value.Supervisor? ==> snapshot.value.attached == now.told
    requires owed != [] ==> now.late || NoExit(Frames(before))
    ensures ClientOk(t, now, after)
    ensures ShowsScreen(Frames(after))
    ensures Warnings(Frames(after)) == Warnings(Frames(before)) + |owed|
  {
    var consumed, channel := before.outbox.consumed, before.outbox.channel;
    var mask := Race(before, after);
    var base, warnings := consumed + Kept(channel, mask), WarningsIn(Dropped(channel, mask)) + owed;
    ResyncKeepsWarnings(before, after, snapshot, owed, exits);
    ResyncShows(t, base, snapshot, warnings + exits);
    if now.exit.None? {
      NoExitWhenThinned(consumed, channel, mask);
    }
    ResyncKnowsExit(now, base, snapshot, warnings, exits);
    if before.role.value.Supervisor? {
      SupervisorHistory(t, now, before, after, snapshot, owed, exits);
    }
  }

  lemma {:induction false} SupervisorHistory<S>(t: Terminal<S>, now: Now<S>, before: Client, after: Client,
                             snapshot: Frame, owed: seq<Frame>, exits: seq<Frame>)
    requires History(now, before) && Resynced(before, after, snapshot, owed, exits)
    requires SnapshotOf(t, now, snapshot) && ExitsOf(now, exits) && AllWarnings(owed)
    requires owed != [] ==> now.late || NoExit(Frames(before))
    ensures History(now, after)
  {
    hide Inv, Kept, Dropped, FromLog, Forward, Tiled, ExitsShown, WarnsFirst, WarningsIn;
    var consumed, channel := before.outbox.consumed, before.outbox.channel;
    var mask := Race(before, after);
    var base, cleared := consumed + Kept(channel, mask), Dropped(channel, mask);
    var tail := WarningsIn(cleared) + owed + exits;
    ForwardWhenThinned(consumed, channel, mask);
    FromLogWhenThinned(consumed, channel, mask, now.log);
    ResyncKeepsHistory(now, base, snapshot, tail);
    if !after.outbox.overtaken {
      UnracedHistory(now, before, base, cleared, snapshot, owed, exits);
      ResyncShows(t, base, snapshot, tail);
    }
  }

  lemma {:induction false} NoExitWhenThinned(base: seq<Frame>, s: seq<Frame>, mask: seq<bool>)
    requires |s| == |mask| && NoExit(base + s)
    ensures NoExit(base + Kept(s, mask))
  {
    forall i | 0 <= i < |base + Kept(s, mask)| ensures !(base + Kept(s, mask))[i].value.Exited? {
      var j := Origin(base, s, mask, i);
    }
  }

  /** Unless the writer overtook the clear, what it has is a prefix of what it was to have. */
  lemma {:induction false} UnracedHistory<S>(now: Now<S>, before: Client, base: seq<Frame>, cleared: seq<Frame>,
                          snapshot: Frame, owed: seq<Frame>, exits: seq<Frame>)
    requires History(now, before) && !before.outbox.overtaken
    requires Frames(before) == base + cleared
    requires snapshot.value.Snapshot? && ExitsOf(now, exits) && AllWarnings(owed)
    requires owed != [] ==> now.late || NoExit(Frames(before))
    ensures Tiled(base) && ExitsShown(base)
    ensures !now.late ==> WarnsFirst(base + [snapshot] + (WarningsIn(cleared) + owed + exits))
  {
    hide Tiled, ExitsShown, WarnsFirst, FromLog, Forward, WarningsIn;
    Prefix(Frames(before), |base|);
    assert Frames(before)[..|base|] == base;
    if !now.late {
      ResyncWarnsFirst(base, cleared, snapshot, owed, exits);
    }
  }

  /** Clears what is queued for a client and queues the resync in its place; every push succeeds
      (`SendNeverFails`), so no client is dropped for it. */
  method Replace(before: Client, snapshot: Frame, owed: seq<Frame>, exits: seq<Frame>) returns (after: Client)
    requires Settled(before.outbox)
    ensures Resynced(before, after, snapshot, owed, exits)
  {
    var cleared, outbox, mask := Clear(before.outbox);
    var emptied := outbox;
    var tail := WarningsIn(cleared) + owed + exits;
    outbox := ForcePushAll(outbox, [snapshot] + tail);
    after := before.(outbox := outbox);
    assert Race(before, after) == mask;
    assert Frames(after) == emptied.consumed + [snapshot] + tail;
  }

  method ForcePushAll(outbox: Queue<Message>, frames: seq<Frame>) returns (q: Queue<Message>)
    requires Settled(outbox)
    ensures Settled(q) && Stream(q) == Stream(outbox) + frames
    ensures outbox.fates <= q.fates && q.overtaken == outbox.overtaken
  {
    q := outbox;
    for i := 0 to |frames|
      invariant Settled(q) && Stream(q) == Stream(outbox) + frames[..i]
      invariant outbox.fates <= q.fates && q.overtaken == outbox.overtaken
    {
      var _, pushed := ForcePush(q, frames[i]);
      q := pushed;
      assert frames[..i + 1] == frames[..i] + [frames[i]];
    }
    assert frames[..|frames|] == frames;
  }

  // ----- a frame that says what changed -----

  /** `f` tells a client in `role` just what changed between `now` and `next`. */
  ghost predicate Conveys<S>(t: Terminal<S>, role: Role, f: Frame, now: Now<S>, next: Now<S>) {
    match f.value
    case Output(at, bytes) =>
      && next == now.(screen := next.screen, log := next.log)
      && (role.Attach? ==> next.screen == t.feed(now.screen, bytes).screen)
      && (role.Supervisor? ==> at == |now.log| && next.log == now.log + bytes)
    case Exited(outcome) =>
      next == now.(exit := Some(outcome), late := next.late) && (now.late ==> next.late)
    case Attached(count) => role.Supervisor? && next == now.(told := count)
    case Rejected(_) => next == now
    case Unlogged(_) => role.Supervisor? && next == now
    case Snapshot(_, _, _, attached, _, _) =>
      role.Supervisor? && next == now && SnapshotOf(t, now, f) && attached == now.told
    case Warning(_) => false
  }

  lemma {:induction false} HistoryGrows<S>(now: Now<S>, next: Now<S>, c: Client)
    requires History(now, c) && now.log <= next.log && (now.late ==> next.late)
    ensures History(next, c)
  {
    var s := Frames(c);
    forall i | 0 <= i < |s| && s[i].value.Output?
      ensures Stop(s[i]) <= |next.log| && s[i].value.bytes == next.log[s[i].value.at..Stop(s[i])]
    {
      assert next.log[s[i].value.at..Stop(s[i])] == now.log[s[i].value.at..Stop(s[i])];
    }
  }

  lemma {:induction false} AppendToAttach<S>(t: Terminal<S>, now: Now<S>, next: Now<S>, before: Client, after: Client,
          f: Frame)
    requires before.role.Some? && before.role.value.Attach? && AttachOk(t, now, before)
    requires Conveys(t, before.role.value, f, now, next) && Appended(before, after, f)
    ensures AttachOk(t, next, after)
  {
    Append(t, Frames(before), f);
    if next.exit.Some? {
      AppendHears(Frames(before), f, Exited(next.exit.value));
    }
  }

  lemma {:induction false} AppendToSupervisor<S>(t: Terminal<S>, now: Now<S>, next: Now<S>, before: Client,
          after: Client, f: Frame)
    requires before.role == Some(Supervisor) && SupervisorOk(now, before)
    requires Conveys(t, Supervisor, f, now, next) && Appended(before, after, f)
    requires f.value.Exited? ==> ShowsScreen(Frames(before))
    ensures SupervisorOk(next, after)
    ensures Warnings(Frames(after)) == Warnings(Frames(before))
    ensures f.value.Snapshot? || (f.value.Exited? && ShowsScreen(Frames(before))) ==> ShowsScreen(Frames(after))
  {
    hide FromLog, Forward, WarnsFirst, Replay, Tiled, ExitsShown, ShowsScreen, End, Told, Warnings, Hears, Inv;
    Append(t, Frames(before), f);
    if next.exit.Some? {
      AppendHears(Frames(before), f, Exited(next.exit.value));
    }
    HistoryGrows(now, next, before);
    AppendInOrder(Frames(before), f, next.log);
  }

  lemma {:induction false} AppendInOrder(s: seq<Frame>, f: Frame, log: Bytes)
    requires FromLog(s, log) && Forward(s) && !f.value.Warning?
    requires Placed(f) ==> End(s) <= Start(f) && Stop(f) <= |log|
    requires f.value.Output? ==> f.value.bytes == log[f.value.at..Stop(f)]
    ensures FromLog(s + [f], log) && Forward(s + [f])
    ensures WarnsFirst(s) ==> WarnsFirst(s + [f])
  {
    forall i | 0 <= i < |s| && Placed(s[i]) ensures Stop(s[i]) <= End(s) {
      EndIsFurthest(s, i);
    }
  }

  lemma {:induction false} ConveysResyncable<S>(t: Terminal<S>, now: Now<S>, next: Now<S>, c: Client, f: Frame)
    requires c.role.Some? && ClientOk(t, now, c) && Conveys(t, c.role.value, f, now, next)
    ensures Resyncable(next, c)
  {
    if c.role.value.Supervisor? {
      HistoryGrows(now, next, c);
    }
  }

  /** However the frame reached it, a client that was in sync is in sync with what changed. */
  lemma {:induction false} ReachedConveys<S(!new)>(t: Terminal<S>, now: Now<S>, next: Now<S>, before: Client,
          after: Client, f: Frame, snapshot: Frame, exits: seq<Frame>)
    requires Lawful(t) && before.role.Some? && ClientOk(t, now, before)
    requires Conveys(t, before.role.value, f, now, next)
    requires f.value.Exited? && before.role.value.Supervisor? ==> ShowsScreen(Frames(before))
    requires SnapshotOf(t, next, snapshot) && ExitsOf(next, exits)
    requires before.role.value.Supervisor? ==> snapshot.value.attached == next.told
    requires Reached(before, after, f, snapshot, exits)
    ensures ClientOk(t, next, after) && after.role == before.role
    ensures Warnings(Frames(after)) == Warnings(Frames(before))
    ensures before.role.value.Supervisor? && (f.value.Snapshot? || f.value.Exited?) ==> ShowsScreen(Frames(after))
  {
    if Appended(before, after, f) {
      match before.role.value
      case Attach(_) => AppendToAttach(t, now, next, before, after, f);
      case Supervisor => AppendToSupervisor(t, now, next, before, after, f);
    } else {
      ConveysResyncable(t, now, next, before, f);
      ResyncSyncs(t, next, before, after, snapshot, [], exits);
    }
  }

  /** What an attach client does not see changes nothing for it, nor what a supervisor does not. */
  lemma Unaffected<S>(t: Terminal<S>, now: Now<S>, next: Now<S>, c: Client)
    requires ClientOk(t, now, c)
    requires match c.role
             case None => true
             case Some(Attach(_)) => next.screen == now.screen && next.exit == now.exit
             case Some(Supervisor) => next == now.(screen := next.screen)
    ensures ClientOk(t, next, c)
  {
  }
}

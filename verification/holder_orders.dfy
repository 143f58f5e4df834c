/**
 The order of a supervisor's frames over whole runs: what each event sends it, move by move, and so
 when the order lasts.
 */
module HolderOrders {
  import opened ByteQueues
  import opened Basics
  import opened HolderProtocol
  import opened HolderStreams
  import opened HolderClients
  import opened HolderTable
  import opened HolderState
  import opened HolderEvents
  import opened HolderRaces
  import opened Sieve

  // ----- one move -----

  /** What can happen to a client: its writer takes frames, it is sent one, or it is resynced. */
  datatype Move = Took | Got(f: Frame) | Resync(out: Outgoing, owed: seq<Frame>)

  ghost predicate Moved(before: Client, move: Move, after: Client) {
    match move
    case Took => after.role == before.role && Ran(before.outbox, after.outbox)
    case Got(f) => Appended(before, after, f)
    case Resync(out, owed) => Resynced(before, after, out.snapshot, owed, out.exits)
  }

  /** What a resync sends is a snapshot, warnings and exits, and nothing else is a warning. */
  ghost predicate Proper(move: Move) {
    match move
    case Took => true
    case Got(f) => !f.value.Warning?
    case Resync(out, owed) => Sendable(out.snapshot, owed, out.exits)
  }

  lemma {:induction false} MoveTiles(before: Client, move: Move, after: Client)
    requires Moved(before, move, after) && Proper(move) && Forward(Frames(before)) && Tiled(Frames(before))
    requires move.Got? && move.f.value.Output? ==> End(Frames(before)) == move.f.value.at
    requires move.Resync? ==> !OutputBehind(before)
    ensures Tiled(Frames(after))
  {
    hide Inv, Tiled, Forward, End, OutputBehind, Resynced, Sendable;
    match move
    case Took =>
    case Got(f) => TiledOfAppend(Frames(before), f);
    case Resync(out, owed) => TilingSurvives(before, after, out.snapshot, owed, out.exits);
  }

  lemma {:induction false} MoveShows(before: Client, move: Move, after: Client)
    requires Moved(before, move, after) && Proper(move) && ExitsShown(Frames(before))
    requires move.Got? && move.f.value.Exited? ==> ShowsScreen(Frames(before))
    requires move.Resync? ==> !ScreenAtRisk(before)
    ensures ExitsShown(Frames(after))
  {
    hide Inv, ExitsShown, ShowsScreen, ScreenAtRisk, Resynced, Sendable;
    match move
    case Took =>
    case Got(f) => ShownOfAppend(Frames(before), f);
    case Resync(out, owed) => ScreensSurvive(before, after, out.snapshot, owed, out.exits);
  }

  lemma {:induction false} MoveWarns(before: Client, move: Move, after: Client)
    requires Moved(before, move, after) && Proper(move) && WarnsFirst(Frames(before))
    requires move.Resync? ==> !WarningAtRisk(before, move.owed)
    ensures WarnsFirst(Frames(after))
  {
    hide Inv, WarningAtRisk, Resynced, Sendable;
    match move
    case Took =>
    case Got(f) =>
    case Resync(out, owed) =>
      hide WarnsFirst;
      WarningsSurvive(before, after, out.snapshot, owed, out.exits);
  }

  /** A snapshot sent or resynced to leaves the screen shown. */
  lemma {:induction false} MoveLeavesScreen(before: Client, move: Move, after: Client)
    requires Moved(before, move, after) && Proper(move)
    requires move.Resync? || (move.Got? && move.f.value.Snapshot?)
    ensures ShowsScreen(Frames(after))
  {
    hide Inv, ShowsScreen, Kept, Dropped, WarningsIn;
    match move
    case Got(f) => ShownOfAppend(Frames(before), f);
    case Resync(out, owed) =>
      var base := before.outbox.consumed + Kept(before.outbox.channel, Race(before, after));
      var tail := WarningsIn(Dropped(before.outbox.channel, Race(before, after))) + owed + out.exits;
      QuietlyAfter(base, out.snapshot, tail);
  }

  /** Nothing sent goes back over the log, so long as a snapshot says where the log ends. */
  lemma {:induction false} MoveKeepsForward(before: Client, move: Move, after: Client, log: Bytes, place: nat)
    requires Moved(before, move, after) && Proper(move) && FromLog(Frames(before), log) && Forward(Frames(before))
    requires |log| <= place
    requires move.Got? && Placed(move.f) ==> |log| <= Start(move.f)
    requires move.Resync? ==> move.out.snapshot.value.logEnd == place
    ensures Forward(Frames(after))
  {
    hide Inv;
    match move
    case Took =>
    case Got(f) =>
    case Resync(out, owed) =>
      var consumed, channel, mask := before.outbox.consumed, before.outbox.channel, Race(before, after);
      hide Kept, Dropped, WarningsIn;
      ForwardWhenThinned(consumed, channel, mask);
      FromLogWhenThinned(consumed, channel, mask, log);
      EndsForward(consumed + Kept(channel, mask), out.snapshot,
                  WarningsIn(Dropped(channel, mask)) + owed + out.exits, log);
  }

  lemma EndsForward(base: seq<Frame>, snapshot: Frame, tail: seq<Frame>, log: Bytes)
    requires FromLog(base, log) && Forward(base) && snapshot.value.Snapshot? && |log| <= snapshot.value.logEnd
    requires forall i :: 0 <= i < |tail| ==> Quiet(tail[i])
    ensures Forward(base + [snapshot] + tail)
  {
  }

  // ----- the screen an exit follows -----

  predicate Paints(f: Frame, screens: set<(Bytes, Size)>) {
    f.value.Snapshot? && (f.value.repaint, f.value.size) in screens
  }

  /** Setting warnings and exits aside, the stream ends in a snapshot of one of `screens`. */
  ghost predicate ShowsOneOf(s: seq<Frame>, screens: set<(Bytes, Size)>)
    decreases |s|
  {
    s != [] && (
      || Paints(s[|s| - 1], screens)
      || (Quiet(s[|s| - 1]) && ShowsOneOf(s[..|s| - 1], screens)))
  }

  /** Each exit comes right after a snapshot of one of `screens`. */
  ghost predicate ExitsShowOneOf(s: seq<Frame>, screens: set<(Bytes, Size)>)
    decreases |s|
  {
    s == [] || (
      && ExitsShowOneOf(s[..|s| - 1], screens)
      && (s[|s| - 1].value.Exited? ==> ShowsOneOf(s[..|s| - 1], screens)))
  }

  lemma {:induction false} OneOfAppend(s: seq<Frame>, f: Frame, screens: set<(Bytes, Size)>)
    ensures ShowsOneOf(s + [f], screens) <==> Paints(f, screens) || (Quiet(f) && ShowsOneOf(s, screens))
    ensures ExitsShowOneOf(s + [f], screens) <==>
      ExitsShowOneOf(s, screens) && (f.value.Exited? ==> ShowsOneOf(s, screens))
  {
    assert (s + [f])[..|s|] == s;
  }

  lemma {:induction false} OneOfPrefix(s: seq<Frame>, n: nat, screens: set<(Bytes, Size)>)
    requires n <= |s| && ExitsShowOneOf(s, screens)
    ensures ExitsShowOneOf(s[..n], screens)
    decreases |s|
  {
    if n < |s| {
      OneOfPrefix(s[..|s| - 1], n, screens);
      assert s[..|s| - 1][..n] == s[..n];
    } else {
      assert s[..n] == s;
    }
  }

  lemma {:induction false} OneOfMore(s: seq<Frame>, screens: set<(Bytes, Size)>, more: set<(Bytes, Size)>)
    requires screens <= more
    ensures ShowsOneOf(s, screens) ==> ShowsOneOf(s, more)
    ensures ExitsShowOneOf(s, screens) ==> ExitsShowOneOf(s, more)
    decreases |s|
  {
    if s != [] {
      OneOfMore(s[..|s| - 1], screens, more);
    }
  }

  lemma {:induction false} OneOfNoExit(s: seq<Frame>, screens: set<(Bytes, Size)>)
    requires NoExit(s)
    ensures ExitsShowOneOf(s, screens)
    decreases |s|
  {
    if s != [] {
      OneOfNoExit(s[..|s| - 1], screens);
    }
  }

  lemma {:induction false} OneOfQuietTail(s: seq<Frame>, tail: seq<Frame>, screens: set<(Bytes, Size)>)
    requires ExitsShowOneOf(s, screens) && (ShowsOneOf(s, screens) || NoExit(tail))
    requires forall i :: 0 <= i < |tail| ==> Quiet(tail[i])
    ensures ExitsShowOneOf(s + tail, screens) && (ShowsOneOf(s, screens) ==> ShowsOneOf(s + tail, screens))
    decreases |tail|
  {
    if tail == [] {
      assert s + tail == s;
    } else {
      hide ExitsShowOneOf, ShowsOneOf;
      var front, last := tail[..|tail| - 1], tail[|tail| - 1];
      OneOfQuietTail(s, front, screens);
      OneOfAppend(s + front, last, screens);
      assert s + tail == s + front + [last];
    }
  }

  /** Unless the writer overtook a clear with an exit queued, a move keeps exits behind their screens. */
  lemma {:induction false} MovePaints(before: Client, move: Move, after: Client, screens: set<(Bytes, Size)>)
    requires Moved(before, move, after) && Proper(move) && ExitsShowOneOf(Frames(before), screens)
    requires move.Got? && move.f.value.Exited? ==> ShowsOneOf(Frames(before), screens)
    requires move.Resync? ==>
      && (move.out.exits != [] ==> Paints(move.out.snapshot, screens))
      && (NoExit(Frames(before)) || !after.outbox.overtaken)
    ensures ExitsShowOneOf(Frames(after), screens)
    ensures move.Resync? && move.out.exits != [] ==> ShowsOneOf(Frames(after), screens)
    ensures move.Got? && Paints(move.f, screens) ==> ShowsOneOf(Frames(after), screens)
  {
    hide Inv, ExitsShowOneOf, ShowsOneOf, Kept, Dropped, WarningsIn;
    match move
    case Took =>
    case Got(f) => OneOfAppend(Frames(before), f, screens);
    case Resync(out, owed) =>
      var kept := Kept(before.outbox.channel, Race(before, after));
      var cleared := Dropped(before.outbox.channel, Race(before, after));
      var base := before.outbox.consumed + kept;
      if NoExit(Frames(before)) {
        NoExitWhenThinned(before.outbox.consumed, before.outbox.channel, Race(before, after));
        OneOfNoExit(base, screens);
      } else {
        OneOfPrefix(Frames(before), |base|, screens);
        assert Frames(before)[..|base|] == base;
      }
      OneOfAppend(base, out.snapshot, screens);
      OneOfQuietTail(base + [out.snapshot], WarningsIn(cleared) + owed + out.exits, screens);
  }

  // ----- what an event sends a supervisor -----

  /** What became of a supervisor in one event: where the holder stood when it sent what it had to,
      what that was, and the client between moves. */
  datatype Story<S> = Story(at: Holder<S>, sends: seq<Frame>, clients: seq<Client>, moves: seq<Move>)

  ghost predicate Path(clients: seq<Client>, moves: seq<Move>) {
    |clients| == |moves| + 1 && forall i :: 0 <= i < |moves| ==> Moved(clients[i], moves[i], clients[i + 1])
  }

  /** Each frame was sent, or, when there was no room for it, a resync in its place. */
  ghost predicate SentOrResynced(sends: seq<Frame>, out: Outgoing, clients: seq<Client>, moves: seq<Move>) {
    && |moves| == |sends| && |clients| == |moves| + 1
    && forall i :: 0 <= i < |moves| ==>
         || moves[i] == Got(sends[i])
         || (moves[i] == Resync(out, []) && Overfull(clients[i].outbox, sends[i]))
  }

  /** The frames a chunk is to its supervisor: what the log held, then what it could not. */
  function OutputFor<S>(run: Run<S>, at: nat, bytes: Bytes, logging: Logging): seq<Frame> {
    (if logging.whole then [FrameOf(run, Output(at, bytes))]
     else if logging.held == [] then [] else [FrameOf(run, Output(at, logging.held))])
    + (if UnloggedPart(logging) == [] then [] else [FrameOf(run, Unlogged(UnloggedPart(logging)))])
  }

  function CountFor<S>(run: Run<S>, before: Holder<S>, after: Holder<S>): seq<Frame> {
    if after.reportedAttached == before.reportedAttached then [] else [FrameOf(run, Attached(after.reportedAttached))]
  }

  /** What an event has to tell a supervisor who stays. */
  ghost predicate Tells<S>(run: Run<S>, before: Holder<S>, event: Event, after: Holder<S>, c: ClientId,
          story: Story<S>)
  {
    var out := Out(run, story.at);
    match event
    case ChildOutput(bytes, logging) =>
      if run.terminal.feed(before.screen, bytes).Processed?
      then
        && story.sends == OutputFor(run, |before.log|, bytes, logging)
        && SentOrResynced(story.sends, out, story.clients, story.moves)
      else story.moves == [Resync(out, if before.resetWarning.Sent? then [] else [out.warning])]
    case ChildExited(outcome) =>
      && story.at.exit == Some(outcome)
      && story.sends == [out.snapshot, FrameOf(run, Exited(outcome))]
      && SentOrResynced(story.sends, out, story.clients, story.moves)
    case Says(client, _) =>
      && SentOrResynced(story.sends, out, story.clients, story.moves)
      && if client == c then story.sends == [] || exists reason :: story.sends == [FrameOf(run, Rejected(reason))]
         else story.sends == CountFor(run, before, after)
    case Disconnected(_) =>
      story.sends == CountFor(run, before, after) && SentOrResynced(story.sends, out, story.clients, story.moves)
    case WriterRuns(client) => story.moves == if client == c then [Took] else []
    case _ => story.moves == []
  }

  /** The screen and exit are those before or after the event, the log the one after. */
  ghost predicate Stands<S>(before: Holder<S>, at: Holder<S>, after: Holder<S>) {
    && before.log <= at.log == after.log
    && (|| (at.screen == before.screen && at.size == before.size && at.exit == before.exit)
        || (at.screen == after.screen && at.size == after.size && at.exit == after.exit))
  }

  /** A story that tells how an event took a supervisor from one state to the next. */
  ghost predicate Explains<S>(run: Run<S>, before: Holder<S>, event: Event, after: Holder<S>, c: ClientId,
          story: Story<S>)
  {
    && Stays(before, c, after) && Stands(before, story.at, after) && Tells(run, before, event, after, c, story)
    && Path(story.clients, story.moves)
    && story.clients[0] == before.clients[c] && story.clients[|story.moves|] == after.clients[c]
  }

  ghost predicate Stays<S>(before: Holder<S>, c: ClientId, after: Holder<S>) {
    c in before.clients && c in after.clients && IsSupervisor(before.clients[c]) && IsSupervisor(after.clients[c])
  }

  /** Output comes first and at the log's end, an exit right after a screen, and nothing sent is a
      warning. */
  ghost predicate WellSent(sends: seq<Frame>, place: nat, exited: bool, snapshot: Frame) {
    && |sends| <= 2
    && forall i :: 0 <= i < |sends| ==>
         && !sends[i].value.Warning?
         && (sends[i].value.Output? ==> i == 0 && sends[i].value.at == place)
         && (sends[i].value.Snapshot? ==> i == 0 && sends[i] == snapshot)
         && (sends[i].value.Exited? ==> i == 1 && exited && sends[0] == snapshot)
  }

  /** The same of moves; a resync is to where the holder stood. */
  ghost predicate WellMoved<S>(run: Run<S>, before: Holder<S>, story: Story<S>) {
    && |story.moves| <= 2
    && forall i :: 0 <= i < |story.moves| ==>
         && Proper(story.moves[i])
         && (story.moves[i].Resync? ==> story.moves[i].out == Out(run, story.at))
         && (story.moves[i].Got? ==>
               var f := story.moves[i].f;
               && (f.value.Output? ==> i == 0 && f.value.at == |before.log|)
               && (f.value.Snapshot? ==> i == 0 && f == Out(run, story.at).snapshot)
               && (f.value.Exited? ==>
                     && i == 1 && story.at.exit.Some?
                     && (story.moves[0].Resync? || story.moves[0] == Got(Out(run, story.at).snapshot))))
  }

  lemma {:induction false} ResyncProper<S(!new)>(run: Run<S>, h: Holder<S>, owed: seq<Frame>)
    requires owed == [] || owed == [Out(run, h).warning]
    ensures Proper(Resync(Out(run, h), owed))
  {
    hide WritableAttached;
  }

  lemma {:induction false} RelayWellMoved<S(!new)>(run: Run<S>, before: Holder<S>, story: Story<S>)
    requires SentOrResynced(story.sends, Out(run, story.at), story.clients, story.moves)
    requires WellSent(story.sends, |before.log|, story.at.exit.Some?, Out(run, story.at).snapshot)
    ensures WellMoved(run, before, story)
  {
    hide Out, Sendable;
    ResyncProper(run, story.at, []);
  }

  /** So it is whatever the event. */
  lemma {:induction false} StoryShape<S(!new)>(run: Run<S>, before: Holder<S>, event: Event, after: Holder<S>,
          c: ClientId, story: Story<S>)
    requires Explains(run, before, event, after, c, story)
    ensures WellMoved(run, before, story)
  {
    hide Path, Stands, Proper, Out, SentOrResynced, WellMoved;
    match event
    case ChildOutput(bytes, logging) =>
      if run.terminal.feed(before.screen, bytes).Processed? {
        OutputWellSent(run, |before.log|, bytes, logging, story.at);
        RelayWellMoved(run, before, story);
      } else {
        ResetWellMoved(run, before, story);
      }
    case WriterRuns(_) => TookWellMoved(run, before, story);
    case ChildExited(outcome) =>
      ExitWellSent(run, |before.log|, outcome, story.at);
      RelayWellMoved(run, before, story);
    case Says(_, _) => RelayWellMoved(run, before, story);
    case Disconnected(_) => RelayWellMoved(run, before, story);
    case _ => TookWellMoved(run, before, story);
  }

  lemma {:induction false} OutputWellSent<S(!new)>(run: Run<S>, place: nat, bytes: Bytes, logging: Logging,
          at: Holder<S>)
    ensures WellSent(OutputFor(run, place, bytes, logging), place, at.exit.Some?, Out(run, at).snapshot)
  {
    hide Out, UnloggedPart;
  }

  lemma {:induction false} ExitWellSent<S(!new)>(run: Run<S>, place: nat, outcome: ExitOutcome, at: Holder<S>)
    requires at.exit == Some(outcome)
    ensures var snapshot := Out(run, at).snapshot;
            WellSent([snapshot, FrameOf(run, Exited(outcome))], place, at.exit.Some?, snapshot)
  {
    hide WritableAttached;
  }

  lemma {:induction false} ResetWellMoved<S(!new)>(run: Run<S>, before: Holder<S>, story: Story<S>)
    requires var out := Out(run, story.at);
             story.moves == [Resync(out, if before.resetWarning.Sent? then [] else [out.warning])]
    ensures WellMoved(run, before, story)
  {
    hide Out, Sendable;
    ResyncProper(run, story.at, if before.resetWarning.Sent? then [] else [Out(run, story.at).warning]);
  }

  lemma {:induction false} TookWellMoved<S(!new)>(run: Run<S>, before: Holder<S>, story: Story<S>)
    requires story.moves == [] || story.moves == [Took]
    ensures WellMoved(run, before, story)
  {
    hide Out;
  }

  lemma {:induction false} SupervisorPlaces<S(!new)>(run: Run<S>, h: Holder<S>, c: ClientId)
    requires Valid(run, h) && c in h.clients && IsSupervisor(h.clients[c])
    ensures FromLog(Frames(h.clients[c]), h.log) && Forward(Frames(h.clients[c]))
    ensures End(Frames(h.clients[c])) == |h.log|
  {
    hide Valid, FromLog, Forward, End, Tiled;
    ValidMeans(run, h);
  }

  lemma {:induction false} StoryForward<S(!new)>(run: Run<S>, before: Holder<S>, event: Event, after: Holder<S>,
          c: ClientId, story: Story<S>)
    requires Valid(run, before) && Explains(run, before, event, after, c, story)
    ensures Forward(Frames(before.clients[c])) && End(Frames(before.clients[c])) == |before.log|
    ensures |story.moves| == 2 ==> Forward(Frames(story.clients[1]))
  {
    hide Valid, Tells, Forward, FromLog, Moved, Proper, End, WritableAttached;
    SupervisorPlaces(run, before, c);
    StoryShape(run, before, event, after, c, story);
    if |story.moves| == 2 {
      MoveKeepsForward(story.clients[0], story.moves[0], story.clients[1], before.log, |story.at.log|);
    }
  }

  /** Each resync started with no output queued behind a frame that moves on along the log. */
  ghost predicate PlacesSafe<S>(story: Story<S>) {
    forall i :: 0 <= i < |story.moves| && i < |story.clients| && story.moves[i].Resync? ==>
      !OutputBehind(story.clients[i])
  }

  /** Each resync started with the screen taken of every exit queued. */
  ghost predicate ScreensSafe<S>(story: Story<S>) {
    forall i :: 0 <= i < |story.moves| && i < |story.clients| && story.moves[i].Resync? ==>
      !ScreenAtRisk(story.clients[i])
  }

  /** Each resync started with no exit in the stream or no warning queued or owed. */
  ghost predicate WarningsSafe<S>(story: Story<S>) {
    forall i :: 0 <= i < |story.moves| && i < |story.clients| && story.moves[i].Resync? ==>
      !WarningAtRisk(story.clients[i], story.moves[i].owed)
  }

  lemma {:induction false} StoryTiles<S(!new)>(run: Run<S>, before: Holder<S>, event: Event, after: Holder<S>,
          c: ClientId, story: Story<S>)
    requires Valid(run, before) && Explains(run, before, event, after, c, story)
    requires Tiled(Frames(before.clients[c])) && PlacesSafe(story)
    ensures Tiled(Frames(after.clients[c]))
  {
    hide Valid, Tells, Moved, Stands, Proper, Forward, Tiled, End, OutputBehind, Out;
    StoryShape(run, before, event, after, c, story);
    StoryForward(run, before, event, after, c, story);
    if |story.moves| >= 1 {
      MoveTiles(story.clients[0], story.moves[0], story.clients[1]);
    }
    if |story.moves| == 2 {
      MoveTiles(story.clients[1], story.moves[1], story.clients[2]);
    }
  }

  lemma {:induction false} StoryShows<S(!new)>(run: Run<S>, before: Holder<S>, event: Event, after: Holder<S>,
          c: ClientId, story: Story<S>)
    requires Explains(run, before, event, after, c, story)
    requires ExitsShown(Frames(before.clients[c])) && ScreensSafe(story)
    ensures ExitsShown(Frames(after.clients[c]))
  {
    hide Tells, Moved, Stands, Proper, ExitsShown, ShowsScreen, ScreenAtRisk;
    StoryShape(run, before, event, after, c, story);
    if |story.moves| >= 1 {
      MoveShows(story.clients[0], story.moves[0], story.clients[1]);
    }
    if |story.moves| == 2 {
      if story.moves[1].Got? && story.moves[1].f.value.Exited? {
        MoveLeavesScreen(story.clients[0], story.moves[0], story.clients[1]);
      }
      MoveShows(story.clients[1], story.moves[1], story.clients[2]);
    }
  }

  lemma {:induction false} StoryWarns<S(!new)>(run: Run<S>, before: Holder<S>, event: Event, after: Holder<S>,
          c: ClientId, story: Story<S>)
    requires Explains(run, before, event, after, c, story)
    requires WarnsFirst(Frames(before.clients[c])) && WarningsSafe(story)
    ensures WarnsFirst(Frames(after.clients[c]))
  {
    hide Tells, Moved, Stands, Proper, WarnsFirst, WarningAtRisk, Out;
    StoryShape(run, before, event, after, c, story);
    if |story.moves| >= 1 {
      MoveWarns(story.clients[0], story.moves[0], story.clients[1]);
    }
    if |story.moves| == 2 {
      MoveWarns(story.clients[1], story.moves[1], story.clients[2]);
    }
  }

  lemma {:induction false} OvertakenStays(before: Client, move: Move, after: Client)
    requires Moved(before, move, after) && !after.outbox.overtaken
    ensures !before.outbox.overtaken
  {
    hide Inv, Kept, Dropped, WarningsIn;
  }

  lemma {:induction false} StoryPaints<S(!new)>(run: Run<S>, before: Holder<S>, event: Event, after: Holder<S>,
          c: ClientId, story: Story<S>, screens: set<(Bytes, Size)>)
    requires Explains(run, before, event, after, c, story) && !after.clients[c].outbox.overtaken
    requires story.at.exit.Some? ==> (run.terminal.repaint(story.at.screen), story.at.size) in screens
    requires ExitsShowOneOf(Frames(before.clients[c]), screens)
    ensures ExitsShowOneOf(Frames(after.clients[c]), screens)
  {
    hide Tells, Moved, Stands, Proper, ExitsShowOneOf, ShowsOneOf, NoExit, WritableAttached;
    StoryShape(run, before, event, after, c, story);
    if |story.moves| == 2 {
      OvertakenStays(story.clients[1], story.moves[1], story.clients[2]);
    }
    if |story.moves| >= 1 {
      MovePaints(story.clients[0], story.moves[0], story.clients[1], screens);
    }
    if |story.moves| == 2 {
      MovePaints(story.clients[1], story.moves[1], story.clients[2], screens);
    }
  }

  // ----- every event has a story -----

  /** `sends` took a client from `before` to `after`. */
  ghost predicate Relayed(sends: seq<Frame>, out: Outgoing, before: Client, clients: seq<Client>, moves: seq<Move>,
          after: Client)
  {
    && SentOrResynced(sends, out, clients, moves) && Path(clients, moves)
    && clients[0] == before && clients[|moves|] == after
  }

  lemma {:induction false} NothingRelayed(out: Outgoing, client: Client)
    ensures Relayed([], out, client, [client], [], client)
  {
  }

  lemma {:induction false} OneRelayed(before: Clients, after: Clients, taken: set<ClientId>, f: Frame, out: Outgoing,
          c: ClientId)
    returns (moves: seq<Move>)
    requires Broadcast(before, after, taken, f, out) && c in before && c in taken
    ensures c in after && Relayed([f], out, before[c], [before[c], after[c]], moves, after[c])
    ensures after[c].role == before[c].role
  {
    hide Settled, Pushed, Kept, Dropped, WarningsIn;
    var move := if Appended(before[c], after[c], f) then Got(f) else Resync(out, []);
    assert Moved(before[c], move, after[c]);
    moves := [move];
  }

  lemma {:induction false} RelayedOn(sends: seq<Frame>, out: Outgoing, before: Client, clients: seq<Client>,
          moves: seq<Move>, between: Client, more: seq<Frame>, later: seq<Client>, rest: seq<Move>, after: Client)
    requires Relayed(sends, out, before, clients, moves, between) && Relayed(more, out, between, later, rest, after)
    ensures Relayed(sends + more, out, before, clients + later[1..], moves + rest, after)
  {
    hide Moved;
    var all, path := clients + later[1..], moves + rest;
    forall i | 0 <= i < |path| ensures Moved(all[i], path[i], all[i + 1]) {
      if i >= |moves| {
        assert Moved(later[i - |moves|], rest[i - |moves|], later[i - |moves| + 1]);
      }
    }
  }

  lemma {:induction false} OutputRelayed<S(!new)>(run: Run<S>, next: Holder<S>, held: Clients, whole: Clients,
          after: Clients, bytes: Bytes, logging: Logging, c: ClientId)
    returns (clients: seq<Client>, moves: seq<Move>)
    requires Sends(run, next, held, whole, after, bytes, logging) && c in next.clients && IsSupervisor(next.clients[c])
    ensures |next.log| >= |logging.held| && c in after
    ensures var sends := OutputFor(run, |next.log| - |logging.held|, bytes, logging);
            Relayed(sends, Out(run, next), next.clients[c], clients, moves, after[c])
  {
    hide Relayed, Out, Appended, Resynced, LoggingOf, UnloggedPart;
    var at, out := |next.log| - |logging.held|, Out(run, next);
    var first: seq<Frame> := if logging.whole then [FrameOf(run, Output(at, bytes))]
                             else if logging.held == [] then [] else [FrameOf(run, Output(at, logging.held))];
    var rest: seq<Frame> := if UnloggedPart(logging) == [] then [] else [FrameOf(run, Unlogged(UnloggedPart(logging)))];
    var later, more;
    if first == [] {
      clients, moves := [next.clients[c]], [];
      NothingRelayed(out, next.clients[c]);
    } else {
      var taken := if logging.whole then InRole(next.clients, Anyone) else InRole(next.clients, Supervises);
      moves := OneRelayed(next.clients, held, taken, first[0], out, c);
      clients := [next.clients[c], held[c]];
    }
    assert IsSupervisor(held[c]) && whole[c] == held[c];
    if rest == [] {
      later, more := [held[c]], [];
      NothingRelayed(out, held[c]);
    } else {
      more := OneRelayed(whole, after, InRole(whole, Supervises), rest[0], out, c);
      later := [whole[c], after[c]];
    }
    RelayedOn(first, out, next.clients[c], clients, moves, held[c], rest, later, more, after[c]);
    clients, moves := clients + later[1..], moves + more;
  }

  lemma {:induction false} OutputExplained<S(!new)>(run: Run<S>, before: Holder<S>, bytes: Bytes, logging: Logging,
          after: Holder<S>, c: ClientId)
    returns (story: Story<S>)
    requires Stays(before, c, after) && Spoke(run, before, after, bytes, logging)
    requires before.resetWarning.Pending? ==> NoSupervisor(before.clients)
    ensures Explains(run, before, ChildOutput(bytes, logging), after, c, story)
  {
    hide Sends, Out, Resynced, Replied, OutputFor, InRole, Moved, SentOrResynced, ResetSent;
    var fed := run.terminal.feed(before.screen, bytes);
    var next := before.(input := after.input, late := before.late || before.exit.Some?,
                        screen := fed.screen, log := before.log + logging.held);
    if fed.Processed? {
      var held, whole :| Sends(run, next, held, whole, after.clients, bytes, logging);
      var clients, moves := OutputRelayed(run, next, held, whole, after.clients, bytes, logging, c);
      story := Story(next, OutputFor(run, |before.log|, bytes, logging), clients, moves);
    } else {
      story := ResetExplained(run, before, next, after, c);
    }
  }

  lemma {:induction false} ResetExplained<S(!new)>(run: Run<S>, before: Holder<S>, next: Holder<S>, after: Holder<S>,
          c: ClientId)
    returns (story: Story<S>)
    requires Stays(before, c, after) && ResetSent(run, next, after) && next.clients == before.clients
    requires next.resetWarning == before.resetWarning && (before.resetWarning.Pending? ==> NoSupervisor(before.clients))
    ensures story.at.screen == next.screen && story.at.size == next.size && story.at.exit == next.exit
    ensures story.at.log == next.log
    ensures after.screen == next.screen && after.size == next.size && after.exit == next.exit && after.log == next.log
    ensures Path(story.clients, story.moves) && story.clients[0] == before.clients[c]
    ensures story.clients[|story.moves|] == after.clients[c]
    ensures var out := Out(run, story.at);
            story.moves == [Resync(out, if before.resetWarning.Sent? then [] else [out.warning])]
  {
    hide Resynced, Out;
    var due := next.(resetWarning := if next.resetWarning.Unneeded? then Pending else next.resetWarning);
    var out := Out(run, due);
    var owed := if before.resetWarning.Sent? then [] else [out.warning];
    assert c in InRole(due.clients, Anyone);
    assert Moved(before.clients[c], Resync(out, owed), after.clients[c]);
    story := Story(due, [], [before.clients[c], after.clients[c]], [Resync(out, owed)]);
  }

  lemma {:induction false} ExitExplained<S(!new)>(run: Run<S>, before: Holder<S>, outcome: ExitOutcome,
          after: Holder<S>, c: ClientId)
    returns (story: Story<S>)
    requires Stays(before, c, after) && Ended(run, before, after, outcome)
    ensures Explains(run, before, ChildExited(outcome), after, c, story)
  {
    hide Broadcast, Out, Moved, SentOrResynced;
    var next := before.(exit := Some(outcome), childExited := true, late := before.late || before.exit.Some?);
    var shown :| ExitSends(run, next, shown, after.clients, outcome);
    var out := Out(run, next);
    var first := OneRelayed(next.clients, shown, InRole(next.clients, Supervises), out.snapshot, out, c);
    var second := OneRelayed(shown, after.clients, InRole(shown, Anyone), FrameOf(run, Exited(outcome)), out, c);
    var between := shown[c];
    RelayedOn([out.snapshot], out, before.clients[c], [before.clients[c], between], first, between,
              [FrameOf(run, Exited(outcome))], [between, after.clients[c]], second, after.clients[c]);
    story := Story(next, [out.snapshot] + [FrameOf(run, Exited(outcome))],
                   [before.clients[c], between] + [between, after.clients[c]][1..], first + second);
    assert Relayed(story.sends, out, before.clients[c], story.clients, story.moves, after.clients[c]);
  }

  /** Of the count the supervisor is told if it is another. */
  lemma {:induction false} CountRelayed<S(!new)>(run: Run<S>, h: Holder<S>, after: Clients, c: ClientId)
    returns (clients: seq<Client>, moves: seq<Move>)
    requires CountTold(run, h, after) && c in h.clients && IsSupervisor(h.clients[c])
    ensures c in after && after[c].role == h.clients[c].role
    ensures var count := WritableAttached(h.clients);
            var sends := if count == h.reportedAttached then [] else [FrameOf(run, Attached(count))];
            Relayed(sends, Out(run, h), h.clients[c], clients, moves, after[c])
  {
    hide Out, WritableAttached, Relayed, Reached;
    var count := WritableAttached(h.clients);
    if count == h.reportedAttached {
      clients, moves := [h.clients[c]], [];
      NothingRelayed(Out(run, h), h.clients[c]);
    } else {
      moves := OneRelayed(h.clients, after, InRole(h.clients, Supervises), FrameOf(run, Attached(count)),
                          Out(run, h), c);
      clients := [h.clients[c], after[c]];
    }
  }

  lemma {:induction false} DepartureExplained<S(!new)>(run: Run<S>, before: Holder<S>, client: ClientId,
          after: Holder<S>, c: ClientId)
    returns (story: Story<S>)
    requires Stays(before, c, after) && Departed(run, before, after, {client})
    ensures Explains(run, before, Disconnected(client), after, c, story)
  {
    hide CountTold, Out, WritableAttached, Moved, SentOrResynced, Without, Resynced;
    var counted :| DepartureTold(run, before, counted, after, {client});
    var left := before.(clients := before.clients - {client});
    var clients, moves := CountRelayed(run, left, counted, c);
    assert after.clients[c] == counted[c];
    story := Story(left, CountFor(run, before, after), clients, moves);
    assert Relayed(story.sends, Out(run, left), before.clients[c], clients, moves, after.clients[c]);
  }

  /** Nothing was said to the supervisor. */
  lemma {:induction false} UntoldExplained<S(!new)>(run: Run<S>, before: Holder<S>, client: ClientId,
          request: Request, after: Holder<S>, c: ClientId)
    returns (story: Story<S>)
    requires Stays(before, c, after) && after.clients[c] == before.clients[c]
    requires after.reportedAttached == before.reportedAttached && after.log == before.log
    ensures Explains(run, before, Says(client, request), after, c, story)
  {
    hide Out;
    story := Story(before, [], [before.clients[c]], []);
  }

  /** One client was told of a refusal, perhaps the supervisor. */
  lemma {:induction false} RefusalExplained<S(!new)>(run: Run<S>, before: Holder<S>, client: ClientId,
          request: Request, after: Holder<S>, reason: RejectReason, c: ClientId)
    returns (story: Story<S>)
    requires Stays(before, c, after) && OnlyTold(run, before, after, client, Rejected(reason))
    requires after.reportedAttached == before.reportedAttached && after.log == before.log
    ensures Explains(run, before, Says(client, request), after, c, story)
  {
    hide Out, Reached, Moved, SentOrResynced;
    if client == c {
      var moves := OneRelayed(before.clients, after.clients, {c}, FrameOf(run, Rejected(reason)), Out(run, before), c);
      story := Story(before, [FrameOf(run, Rejected(reason))], [before.clients[c], after.clients[c]], moves);
    } else {
      story := UntoldExplained(run, before, client, request, after, c);
    }
  }

  /** A departure of nobody changes nothing. */
  lemma {:induction false} NobodyLeft<S(!new)>(run: Run<S>, before: Holder<S>, after: Holder<S>)
    requires Counted(before) && Departed(run, before, after, {})
    ensures after == before
  {
    hide Out, WritableAttached;
    WithoutAbsent(before.resizes, {});
    var counted :| DepartureTold(run, before, counted, after, {});
    assert before.clients - {} == before.clients;
  }

  lemma {:induction false} CountKeepsRoles<S(!new)>(run: Run<S>, h: Holder<S>, after: Clients)
    requires CountTold(run, h, after)
    ensures SameRoles(h.clients, after)
  {
    hide Out, WritableAttached, Settled, Pushed, Kept, Dropped, WarningsIn, InRole;
  }

  lemma {:induction false} GreetingExplained<S(!new)>(run: Run<S>, before: Holder<S>, client: ClientId, role: Role,
          after: Holder<S>, c: ClientId)
    returns (story: Story<S>)
    requires Counted(before) && client in before.clients && before.clients[client].role.None?
    requires Stays(before, c, after) && Greeted(run, before, after, client, role)
    ensures Explains(run, before, Says(client, Hello(role)), after, c, story)
  {
    hide Out, WritableAttached, Moved, SentOrResynced, CountTold, Greeted;
    var admitted := GreetingAsides(run, before, client, role, after, c);
    var clients, moves := CountRelayed(run, admitted, after.clients, c);
    story := Story(admitted, CountFor(run, before, after), clients, moves);
  }

  /** Of a greeting the supervisor that stays hears only the count. */
  lemma {:induction false} GreetingAsides<S(!new)>(run: Run<S>, before: Holder<S>, client: ClientId, role: Role,
          after: Holder<S>, c: ClientId)
    returns (admitted: Holder<S>)
    requires Counted(before) && client in before.clients && before.clients[client].role.None?
    requires Stays(before, c, after) && Greeted(run, before, after, client, role)
    ensures c in admitted.clients && admitted.clients[c] == before.clients[c] && CountTold(run, admitted, after.clients)
    ensures admitted.screen == before.screen && admitted.size == before.size && admitted.exit == before.exit
    ensures admitted.log == before.log == after.log && admitted.reportedAttached == before.reportedAttached
    ensures after.reportedAttached == WritableAttached(admitted.clients)
  {
    hide Out, WritableAttached, Without, FellBack, CountTold, Resynced, Departed;
    assert role.Supervisor? ==> c in Evicted(before.clients, role);
    var cleared: Holder<S>, named: Holder<S> :| GreetingTold(run, before, cleared, named, after, client, role);
    admitted := named;
    assert before.(supervised := before.supervised || role.Supervisor?) == before;
    NobodyLeft(run, before, cleared);
    CountKeepsRoles(run, admitted, after.clients);
    SameRolesSameCount(admitted.clients, after.clients);
  }

  lemma {:induction false} MessageExplained<S(!new)>(run: Run<S>, before: Holder<S>, client: ClientId,
          request: Request, after: Holder<S>, c: ClientId)
    returns (story: Story<S>)
    requires Counted(before) && Stays(before, c, after) && Heeded(run, before, after, client, request)
    ensures Explains(run, before, Says(client, request), after, c, story)
  {
    hide Greeted, OnlyTold, Explains, Appended, Departed, Without, Pushed, Ran, Counted;
    if client !in before.clients {
      story := UntoldExplained(run, before, client, request, after, c);
    } else if Refusal(before, client, request).Some? {
      if client in after.clients && before.clients[client].role.Some? {
        story := RefusalExplained(run, before, client, request, after, Refusal(before, client, request).value, c);
      } else {
        story := UntoldExplained(run, before, client, request, after, c);
      }
    } else {
      story := ObeyedExplained(run, before, client, request, after, c);
    }
  }

  lemma {:induction false} ObeyedExplained<S(!new)>(run: Run<S>, before: Holder<S>, client: ClientId,
          request: Request, after: Holder<S>, c: ClientId)
    returns (story: Story<S>)
    requires Counted(before) && Stays(before, c, after) && client in before.clients
    requires Refusal(before, client, request).None? && Obeyed(run, before, after, client, request)
    ensures Explains(run, before, Says(client, request), after, c, story)
  {
    hide Greeted, OnlyTold, Explains, Appended, Departed, Without, Pushed, Ran, Counted, Resynced, Redrawn, Out;
    if request.Hello? {
      story := GreetingExplained(run, before, client, request.role, after, c);
    } else if request.Resize? && after.size != request.size {
      story := RefusalExplained(run, before, client, request, after, ChildUnavailable, c);
    } else if request.Input? && OnlyTold(run, before, after, client, Rejected(InputBacklogged)) {
      story := RefusalExplained(run, before, client, request, after, InputBacklogged, c);
    } else if request.Controls? && OnlyTold(run, before, after, client, Rejected(ChildUnavailable)) {
      story := RefusalExplained(run, before, client, request, after, ChildUnavailable, c);
    } else {
      story := UntoldExplained(run, before, client, request, after, c);
    }
  }

  /** Whatever the event, there is a story of how it took a supervisor who stays from one state to the
      next. */
  lemma {:induction false} EventExplained<S(!new)>(run: Run<S>, before: Holder<S>, event: Event, after: Holder<S>,
          c: ClientId)
    returns (story: Story<S>)
    requires Valid(run, before) && Handled(run, before, event, after) && Stays(before, c, after)
    requires event.Connected? ==> event.client >= before.connections
    ensures Explains(run, before, event, after, c, story)
  {
    hide Valid, Counted, NoSupervisor, Spoke, Ended, Heeded, Departed, Wrote, Explains;
    ValidFacts(run, before);
    match event
    case ChildOutput(bytes, logging) => story := OutputExplained(run, before, bytes, logging, after, c);
    case ChildExited(outcome) => story := ExitExplained(run, before, outcome, after, c);
    case Says(client, request) => story := MessageExplained(run, before, client, request, after, c);
    case Disconnected(client) => story := DepartureExplained(run, before, client, after, c);
    case WriterRuns(client) => story := WriterExplained(run, before, client, after, c);
    case _ => story := SilenceExplained(run, before, event, after, c);
  }

  lemma {:induction false} SilenceExplained<S(!new)>(run: Run<S>, before: Holder<S>, event: Event, after: Holder<S>,
          c: ClientId)
    returns (story: Story<S>)
    requires Stays(before, c, after) && Handled(run, before, event, after)
    requires event.ChildOther? || event.GraceElapsed? || event.SupervisorDeadline?
          || (event.Connected? && event.client != c)
    ensures Explains(run, before, event, after, c, story)
  {
    hide Out, Spoke, Ended, Heeded, Departed, Wrote, SentOrResynced, CountFor, OutputFor;
    story := Story(before, [], [before.clients[c]], []);
  }

  lemma {:induction false} WriterExplained<S(!new)>(run: Run<S>, before: Holder<S>, client: ClientId,
          after: Holder<S>, c: ClientId)
    returns (story: Story<S>)
    requires Stays(before, c, after) && Wrote(before, after, client)
    ensures Explains(run, before, WriterRuns(client), after, c, story)
  {
    hide Out, Ran;
    story := if client == c
      then Story(before, [], [before.clients[c], after.clients[c]], [Took])
      else Story(before, [], [before.clients[c]], []);
  }

  // ----- whole runs -----

  ghost predicate InCharge<S>(h: Holder<S>, c: ClientId) {
    c in h.clients && IsSupervisor(h.clients[c])
  }

  lemma {:induction false} OnlyHelloObeyed<S(!new)>(run: Run<S>, before: Holder<S>, client: ClientId,
          request: Request, after: Holder<S>, c: ClientId)
    requires Heeded(run, before, after, client, request) && InCharge(after, c) && !InCharge(before, c)
    ensures client == c && request == Hello(Supervisor) && c in before.clients && before.clients[c].role.None?
    ensures Greeted(run, before, after, c, Supervisor)
  {
    hide Without, FellBack, GreetingTold, WritableAttached, Refused, Typed, Resized, Controlled;
    if client in before.clients && Refusal(before, client, request).None? && request.Hello? {
      assert before.clients[client].role.None?;
    } else {
      MessageKeepsRoles(run, before, client, request, after);
    }
  }

  /** No message but a hello changes a role. */
  lemma {:induction false} MessageKeepsRoles<S(!new)>(run: Run<S>, before: Holder<S>, client: ClientId,
          request: Request, after: Holder<S>)
    requires Heeded(run, before, after, client, request)
    requires client in before.clients && Refusal(before, client, request).None? ==> !request.Hello?
    ensures forall c :: c in after.clients ==> c in before.clients && after.clients[c].role == before.clients[c].role
  {
    hide OnlyTold, Departed, Without, Ran, SizeTold, Redrawn, Greeted, Settled, Pushed;
  }

  /** Only a hello puts a client in charge. */
  lemma {:induction false} OnlyHelloAdmits<S(!new)>(run: Run<S>, before: Holder<S>, event: Event, after: Holder<S>,
          c: ClientId)
    requires Handled(run, before, event, after) && InCharge(after, c) && !InCharge(before, c)
    ensures event == Says(c, Hello(Supervisor)) && c in before.clients && before.clients[c].role.None?
    ensures Greeted(run, before, after, c, Supervisor)
  {
    hide Heeded, Greeted, Spoke, Ended, Departed, Wrote, InCharge;
    match event
    case Says(client, request) => OnlyHelloObeyed(run, before, client, request, after, c);
    case ChildOutput(bytes, logging) => OutputKeepsCharge(run, before, bytes, logging, after, c);
    case ChildExited(outcome) => ExitKeepsCharge(run, before, outcome, after, c);
    case Disconnected(client) => DepartureKeepsCharge(run, before, client, after, c);
    case WriterRuns(client) => WriterKeepsCharge(before, client, after, c);
    case Connected(client, cloned) => JoiningKeepsCharge(before, client, cloned, c);
    case _ => SignalKeepsCharge(run, before, event, after, c);
  }

  lemma {:induction false} OutputKeepsCharge<S(!new)>(run: Run<S>, before: Holder<S>, bytes: Bytes, logging: Logging,
          after: Holder<S>, c: ClientId)
    requires Spoke(run, before, after, bytes, logging)
    ensures InCharge(after, c) <==> InCharge(before, c)
  {
    hide OutputSent, ResetSent, Replied;
  }

  lemma {:induction false} ExitKeepsCharge<S(!new)>(run: Run<S>, before: Holder<S>, outcome: ExitOutcome,
          after: Holder<S>, c: ClientId)
    requires Ended(run, before, after, outcome)
    ensures InCharge(after, c) <==> InCharge(before, c)
  {
    hide ExitSends;
  }

  lemma {:induction false} DepartureKeepsCharge<S(!new)>(run: Run<S>, before: Holder<S>, client: ClientId,
          after: Holder<S>, c: ClientId)
    requires Departed(run, before, after, {client})
    ensures InCharge(after, c) <==> InCharge(before, c) && c != client
  {
    hide DepartureTold, FellBack, Without, WritableAttached;
  }

  lemma WriterKeepsCharge<S(!new)>(before: Holder<S>, client: ClientId, after: Holder<S>, c: ClientId)
    requires Wrote(before, after, client)
    ensures InCharge(after, c) <==> InCharge(before, c)
  {
    hide Ran;
  }

  lemma JoiningKeepsCharge<S(!new)>(before: Holder<S>, client: ClientId, cloned: bool, c: ClientId)
    ensures InCharge(Joined(before, client, cloned), c) ==> InCharge(before, c)
  {
  }

  lemma {:induction false} SignalKeepsCharge<S(!new)>(run: Run<S>, before: Holder<S>, event: Event, after: Holder<S>,
          c: ClientId)
    requires Handled(run, before, event, after)
    requires event.ChildOther? || event.GraceElapsed? || event.SupervisorDeadline?
    ensures InCharge(after, c) <==> InCharge(before, c)
  {
    hide SentFor;
  }

  /** A client without a role is not told who else is left, nor of a new size. */
  lemma {:induction false} NamelessUntold<S(!new)>(run: Run<S>, before: Holder<S>, after: Holder<S>,
          gone: set<ClientId>, c: ClientId)
    requires Departed(run, before, after, gone) && c in before.clients && before.clients[c].role.None? && c !in gone
    ensures c in after.clients && after.clients[c] == before.clients[c]
  {
    hide Out, WritableAttached, Without, FellBack, Reached, Resynced;
    var counted :| DepartureTold(run, before, counted, after, gone);
    assert counted[c] == before.clients[c];
  }

  /** A client that takes charge is resynced, and that is all it is told. */
  lemma {:induction false} AdmissionResyncs<S(!new)>(run: Run<S>, before: Holder<S>, after: Holder<S>, c: ClientId)
    returns (from: Client, move: Move)
    requires c in before.clients && before.clients[c].role.None? && Greeted(run, before, after, c, Supervisor)
    ensures c in after.clients && Moved(from, move, after.clients[c]) && move.Resync?
    ensures Frames(from) == Frames(before.clients[c])
    ensures Proper(move) && move.out == Out(run, after)
  {
    hide Without, FellBack, Resynced, Departed, CountTold;
    var cleared: Holder<S>, admitted: Holder<S> :| GreetingTold(run, before, cleared, admitted, after, c, Supervisor);
    NamelessUntold(run, before.(supervised := true), cleared, Evicted(before.clients, Supervisor), c);
    NoOneToCount(run, before.(supervised := true), cleared, admitted, after, c);
    var named := cleared.(clients := cleared.clients[c := cleared.clients[c].(role := Some(Supervisor))]);
    from := named.clients[c];
    move := Resync(Out(run, named), Owed(from, named.resetWarning, Out(run, named).warning));
    SameRolesSameCount(named.clients, admitted.clients);
  }

  lemma {:induction false} NoOneToCount<S(!new)>(run: Run<S>, before: Holder<S>, cleared: Holder<S>,
          admitted: Holder<S>, after: Holder<S>, c: ClientId)
    requires c in before.clients && before.clients[c].role.None?
    requires Departed(run, before, cleared, InRole(before.clients, Supervises))
    requires Admitted(run, cleared, admitted, c, Supervisor)
    requires CountTold(run, admitted, after.clients)
    ensures after.clients == admitted.clients
  {
    hide Without, FellBack, ResyncedAll, DepartureTold, Out, Broadcast;
    var named := cleared.(clients := cleared.clients[c := cleared.clients[c].(role := Some(Supervisor))]);
    ResyncedSameRoles(Everyone(named), Everyone(admitted), {c}, Out(run, named));
    assert AttachedWriters(admitted.clients) == AttachedWriters(before.clients - InRole(before.clients, Supervises));
  }

  lemma {:induction false} OnlyRejectionsSafe(c: Client, owed: seq<Frame>)
    requires OnlyRejections(Frames(c))
    ensures Forward(Frames(c)) && Tiled(Frames(c)) && ExitsShown(Frames(c)) && WarnsFirst(Frames(c))
    ensures NoExit(Frames(c))
    ensures !OutputBehind(c) && !ScreenAtRisk(c) && !WarningAtRisk(c, owed)
  {
    hide Tiled, ExitsShown, Advances;
    NoPlaces(Frames(c), |Frames(c)|);
  }

  /** A client that takes charge starts in order: of its exits each right after the screen as it is. */
  lemma {:induction false} AdmittedInOrder<S(!new)>(run: Run<S>, before: Holder<S>, after: Holder<S>, c: ClientId,
          screens: set<(Bytes, Size)>)
    requires Valid(run, before) && c in before.clients && before.clients[c].role.None?
    requires Greeted(run, before, after, c, Supervisor)
    requires after.exit.Some? ==> (run.terminal.repaint(after.screen), after.size) in screens
    ensures var s := Frames(after.clients[c]); Tiled(s) && ExitsShown(s) && WarnsFirst(s) && ExitsShowOneOf(s, screens)
  {
    hide Greeted, Moved, Proper, Tiled, ExitsShown, WarnsFirst, Forward, ExitsShowOneOf, ShowsOneOf, NoExit,
         WritableAttached;
    hide OutputBehind, ScreenAtRisk, WarningAtRisk, Inv, Sized, Counted, Lawful, WarnedOnce, OneSupervisor,
         NoSupervisor;
    var from, move := AdmissionResyncs(run, before, after, c);
    assert ClientOk(run.terminal, Here(before), before.clients[c]);
    OnlyRejectionsSafe(from, move.owed);
    MoveTiles(from, move, after.clients[c]);
    MoveShows(from, move, after.clients[c]);
    MoveWarns(from, move, after.clients[c]);
    OneOfNoExit(Frames(from), screens);
    MovePaints(from, move, after.clients[c], screens);
  }

  /** A client took charge with state `m` and has been in charge through state `n`. */
  ghost predicate ChargeSince<S>(states: seq<Holder<S>>, m: nat, n: nat, c: ClientId)
    requires n < |states|
  {
    0 < m <= n && !InCharge(states[m - 1], c) && forall k :: m <= k <= n ==> InCharge(states[k], c)
  }

  /** Who is in charge took charge, if no one was at first. */
  lemma {:induction false} ChargeHasStart<S(!new)>(states: seq<Holder<S>>, n: nat, c: ClientId) returns (m: nat)
    requires n < |states| && InCharge(states[n], c) && !InCharge(states[0], c)
    ensures ChargeSince(states, m, n, c)
    decreases n
  {
    hide InCharge;
    if InCharge(states[n - 1], c) {
      m := ChargeHasStart(states, n - 1, c);
    } else {
      m := n;
    }
  }

  /** Stories of a supervisor from state `m` on, one an event. */
  ghost predicate Explained<S>(run: Run<S>, states: seq<Holder<S>>, events: seq<Event>, m: nat, c: ClientId,
          stories: seq<Story<S>>)
  {
    && m + |stories| < |states| <= |events| + 1
    && forall i :: 0 <= i < |stories| ==> Explains(run, states[m + i], events[m + i], states[m + i + 1], c, stories[i])
  }

  /** There are such stories, whatever the run. */
  lemma {:induction false} RunExplained<S(!new)>(run: Run<S>, states: seq<Holder<S>>, events: seq<Event>, m: nat,
          n: nat, c: ClientId)
    returns (stories: seq<Story<S>>)
    requires Trace(run, states, events) && n < |states| && forall i :: 0 <= i <= n ==> Valid(run, states[i])
    requires ChargeSince(states, m, n, c)
    ensures |stories| == n - m && Explained(run, states, events, m, c, stories)
    decreases n
  {
    hide Valid, Handled, EndingOf, Explains;
    if m == n {
      stories := [];
    } else {
      stories := RunExplained(run, states, events, m, n - 1, c);
      assert InCharge(states[n - 1], c) && InCharge(states[n], c) && Valid(run, states[n - 1]);
      var story := EventExplained(run, states[n - 1], events[n - 1], states[n], c);
      stories := stories + [story];
    }
  }

  lemma {:induction false} StartsInOrder<S(!new)>(run: Run<S>, states: seq<Holder<S>>, events: seq<Event>, m: nat,
          n: nat, c: ClientId, screens: set<(Bytes, Size)>)
    requires Trace(run, states, events) && n < |states| && ChargeSince(states, m, n, c) && Valid(run, states[m - 1])
    requires states[m].exit.Some? ==> (run.terminal.repaint(states[m].screen), states[m].size) in screens
    ensures var s := Frames(states[m].clients[c]);
            Tiled(s) && ExitsShown(s) && WarnsFirst(s) && ExitsShowOneOf(s, screens)
  {
    hide Valid, Handled, EndingOf, Greeted, Tiled, ExitsShown, WarnsFirst, ExitsShowOneOf;
    assert Handled(run, states[m - 1], events[m - 1], states[m]) && InCharge(states[m], c);
    OnlyHelloAdmits(run, states[m - 1], events[m - 1], states[m], c);
    AdmittedInOrder(run, states[m - 1], states[m], c, screens);
  }

  ghost predicate AllPlacesSafe<S>(stories: seq<Story<S>>) {
    forall i :: 0 <= i < |stories| ==> PlacesSafe(stories[i])
  }

  ghost predicate AllScreensSafe<S>(stories: seq<Story<S>>) {
    forall i :: 0 <= i < |stories| ==> ScreensSafe(stories[i])
  }

  ghost predicate AllWarningsSafe<S>(stories: seq<Story<S>>) {
    forall i :: 0 <= i < |stories| ==> WarningsSafe(stories[i])
  }

  lemma {:induction false} SafeSoFar<S(!new)>(stories: seq<Story<S>>)
    requires stories != []
    ensures var front, last := stories[..|stories| - 1], stories[|stories| - 1];
            && (AllPlacesSafe(stories) ==> AllPlacesSafe(front) && PlacesSafe(last))
            && (AllScreensSafe(stories) ==> AllScreensSafe(front) && ScreensSafe(last))
            && (AllWarningsSafe(stories) ==> AllWarningsSafe(front) && WarningsSafe(last))
  {
    hide PlacesSafe, ScreensSafe, WarningsSafe;
  }

  /** Over any run, and however the writers run: if since it took charge every resync of a supervisor
      started with nothing at risk of one kind, the order of that kind lasts. Its output tiles the
      log; each exit comes right after a screen; no warning comes after an exit. */
  lemma {:induction false} OrdersOverRun<S(!new)>(run: Run<S>, states: seq<Holder<S>>, events: seq<Event>, m: nat,
          c: ClientId, stories: seq<Story<S>>)
    requires Trace(run, states, events) && Explained(run, states, events, m, c, stories)
    requires forall i :: 0 <= i <= m + |stories| ==> Valid(run, states[i])
    requires ChargeSince(states, m, m + |stories|, c)
    ensures var s := Frames(states[m + |stories|].clients[c]);
            && (AllPlacesSafe(stories) ==> Tiled(s))
            && (AllScreensSafe(stories) ==> ExitsShown(s))
            && (AllWarningsSafe(stories) ==> WarnsFirst(s))
    decreases |stories|
  {
    hide Valid, Trace, Explains, AllPlacesSafe, AllScreensSafe, AllWarningsSafe, Tiled, ExitsShown, WarnsFirst;
    hide PlacesSafe, ScreensSafe, WarningsSafe, InCharge;
    assert InCharge(states[m + |stories|], c);
    if stories == [] {
      StartsInOrder(run, states, events, m, m, c, {(run.terminal.repaint(states[m].screen), states[m].size)});
    } else {
      var last := |stories| - 1;
      OrdersOverRun(run, states, events, m, c, stories[..last]);
      SafeSoFar(stories);
      OrdersNext(run, states[m + last], events[m + last], states[m + last + 1], c, stories[last]);
    }
  }

  lemma {:induction false} OrdersNext<S(!new)>(run: Run<S>, before: Holder<S>, event: Event, after: Holder<S>,
          c: ClientId, story: Story<S>)
    requires Valid(run, before) && Explains(run, before, event, after, c, story)
    ensures c in before.clients && c in after.clients
    ensures Tiled(Frames(before.clients[c])) && PlacesSafe(story) ==> Tiled(Frames(after.clients[c]))
    ensures ExitsShown(Frames(before.clients[c])) && ScreensSafe(story) ==> ExitsShown(Frames(after.clients[c]))
    ensures WarnsFirst(Frames(before.clients[c])) && WarningsSafe(story) ==> WarnsFirst(Frames(after.clients[c]))
  {
    hide Valid, Tells, Stands, Path, PlacesSafe, ScreensSafe, WarningsSafe, Tiled, ExitsShown, WarnsFirst;
    if Tiled(Frames(before.clients[c])) && PlacesSafe(story) {
      StoryTiles(run, before, event, after, c, story);
    }
    if ExitsShown(Frames(before.clients[c])) && ScreensSafe(story) {
      StoryShows(run, before, event, after, c, story);
    }
    if WarnsFirst(Frames(before.clients[c])) && WarningsSafe(story) {
      StoryWarns(run, before, event, after, c, story);
    }
  }

  /** The screens the holder had in the first `n` states in which its child had exited. */
  ghost function ScreensSince<S>(run: Run<S>, states: seq<Holder<S>>, n: nat): set<(Bytes, Size)>
    requires n < |states|
  {
    set k | 0 <= k <= n && states[k].exit.Some? :: (run.terminal.repaint(states[k].screen), states[k].size)
  }

  /** Over any run a supervisor whose writer never overtook a clear hears each exit right after a
      screen the holder had at that exit or since. */
  lemma {:induction false} ExitsShowScreensSince<S(!new)>(run: Run<S>, states: seq<Holder<S>>, events: seq<Event>,
          m: nat, n: nat, c: ClientId)
    requires Trace(run, states, events) && n < |states| && forall i :: 0 <= i <= n ==> Valid(run, states[i])
    requires ChargeSince(states, m, n, c) && !states[n].clients[c].outbox.overtaken
    ensures ExitsShowOneOf(Frames(states[n].clients[c]), ScreensSince(run, states, n))
    decreases n
  {
    hide Valid, Handled, EndingOf, ExitsShowOneOf, InCharge;
    var screens := ScreensSince(run, states, n);
    if m == n {
      StartsInOrder(run, states, events, m, n, c, screens);
    } else {
      var k := n - 1;
      assert InCharge(states[k], c) && InCharge(states[n], c) && Handled(run, states[k], events[k], states[n]);
      ExitsShowNext(run, states, events, k, c);
      ExitsShowScreensSince(run, states, events, m, k, c);
    }
  }

  lemma {:induction false} ExitsShowNext<S(!new)>(run: Run<S>, states: seq<Holder<S>>, events: seq<Event>, k: nat,
          c: ClientId)
    requires k + 1 < |states| <= |events| + 1 && Handled(run, states[k], events[k], states[k + 1])
    requires Valid(run, states[k])
    requires events[k].Connected? ==> events[k].client >= states[k].connections
    requires InCharge(states[k], c) && InCharge(states[k + 1], c) && !states[k + 1].clients[c].outbox.overtaken
    ensures !states[k].clients[c].outbox.overtaken
    ensures ExitsShowOneOf(Frames(states[k].clients[c]), ScreensSince(run, states, k)) ==>
      ExitsShowOneOf(Frames(states[k + 1].clients[c]), ScreensSince(run, states, k + 1))
  {
    hide Valid, Handled, Tells, Moved, ExitsShowOneOf;
    var before, after, screens := states[k], states[k + 1], ScreensSince(run, states, k + 1);
    var story := EventExplained(run, before, events[k], after, c);
    StoryUnraced(run, before, events[k], after, c, story);
    assert story.at.exit.Some? ==> (run.terminal.repaint(story.at.screen), story.at.size) in screens;
    if ExitsShowOneOf(Frames(before.clients[c]), ScreensSince(run, states, k)) {
      OneOfMore(Frames(before.clients[c]), ScreensSince(run, states, k), screens);
      StoryPaints(run, before, events[k], after, c, story, screens);
    }
  }

  lemma {:induction false} StoryUnraced<S(!new)>(run: Run<S>, before: Holder<S>, event: Event, after: Holder<S>,
          c: ClientId, story: Story<S>)
    requires Explains(run, before, event, after, c, story) && !after.clients[c].outbox.overtaken
    ensures !before.clients[c].outbox.overtaken
  {
    hide Tells, Moved, Stands, Proper, Out;
    StoryShape(run, before, event, after, c, story);
    if |story.moves| == 2 {
      OvertakenStays(story.clients[1], story.moves[1], story.clients[2]);
    }
    if |story.moves| >= 1 {
      OvertakenStays(story.clients[0], story.moves[0], story.clients[1]);
    }
  }
}

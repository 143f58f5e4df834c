/**
 Holders in good order whose next event can lose the order of the supervisor's frames: what is queued
 for it is what the holder queued, its outbox has the holder's cap, and the event makes the holder
 resync it while its writer runs on.
 */
module HolderDisorder {
  import opened ByteQueues
  import opened Basics
  import opened HolderProtocol
  import opened HolderStreams
  import opened HolderClients
  import opened HolderTable
  import opened HolderState
  import opened HolderEvents
  import opened HolderRaces
  import opened Sieve

  const FATAL: Bytes := [27]

  /** A blank in every cell. */
  function Blanks(size: Size): (repaint: Bytes)
    ensures |repaint| == size.rows * size.cols
  {
    seq(size.rows * size.cols, i => 32)
  }

  /** A terminal that shows nothing but blanks and whose emulator fails on one chunk. */
  const BARE: Terminal<Size> := Terminal(
    (size: Size) => size,
    (screen: Size) => screen,
    (screen: Size, bytes: Bytes) => if bytes == FATAL then Panicked(screen) else Processed(screen),
    (screen: Size, bytes: Bytes) => [],
    (screen: Size, size: Size) => size,
    (screen: Size) => Blanks(screen),
    (size: Size, repaint: Bytes) => size)

  /** Bytes of a reason as it is written out. */
  function ReasonLen(reason: RejectReason): nat {
    match reason
    case HelloRequired => |"hello-required"|
    case AlreadyIntroduced => |"already-introduced"|
    case ReadOnly => |"read-only"|
    case SupervisorOnly => |"supervisor-only"|
    case NotExited => |"not-exited"|
    case ChildUnavailable => |"child-unavailable"|
    case InputBacklogged => |"input-backlogged"|
  }

  /** Bytes of a message on the wire: the header, then the numbers and bytes it carries or its words
      in quotes. A failed exit is written like one of unknown cause. */
  function WireLen(m: Message): nat {
    5 + match m
        case Snapshot(repaint, _, _, _, _, _) => 28 + |repaint|
        case Output(_, bytes) => 8 + |bytes|
        case Unlogged(bytes) => |bytes|
        case Exited(Succeeded) => |"succeeded"| + 2
        case Exited(Failed(_)) => |"{'failed':'unknown'}"|
        case Rejected(reason) => ReasonLen(reason) + 2
        case Warning(text) => |text| + 2
        case Attached(_) => 4
  }

  const RUN: Run<Size> := Run(BARE, (m: Message) => WireLen(m), 1, 0)

  lemma BareIsLawful()
    ensures Lawful(BARE)
  {
  }

  /** What an outbox holds once these frames were queued in it and none taken. */
  ghost function Queued(frames: seq<Frame>): Queue<Message> {
    var q := Empty(CLIENT_OUTBOX_BYTES);
    q.(channel := q.channel + frames, accepted := q.accepted + frames, counter := q.counter + Weight(frames))
  }

  /** It is an outbox the holder can have: pushes lead to it from a new one. */
  lemma {:induction false} QueuedReached(frames: seq<Frame>) returns (steps: seq<Step<Message>>)
    ensures Reaches(Empty(CLIENT_OUTBOX_BYTES), steps, Queued(frames)) && Settled(Queued(frames))
    ensures Queued(frames).channel == frames && Queued(frames).consumed == [] && Stream(Queued(frames)) == frames
    ensures Queued(frames).counter == Weight(frames) && Queued(frames).cap == CLIENT_OUTBOX_BYTES
    ensures Queued(frames).consumer.Waiting? && !Queued(frames).overtaken
  {
    var q: Queue<Message> := Empty(CLIENT_OUTBOX_BYTES);
    var r;
    steps, r := PushesRun(q, frames);
    assert [] + frames == frames;
  }

  /** A holder with one client, its supervisor. */
  ghost function HolderWith(size: Size, frames: seq<Frame>, log: Bytes, exit: Option<ExitOutcome>, warned: bool)
    : Holder<Size>
  {
    Holder(size, log, Empty(CHILD_INPUT_BYTES), map[0 := Client(Some(Supervisor), Queued(frames))], [], size,
           exit, exit.Some?, true, 0, if warned then Sent else Unneeded, [], [], if warned then Some(0) else None,
           false, false, 1)
  }

  lemma {:induction false} HolderWithValid(size: Size, frames: seq<Frame>, log: Bytes, exit: Option<ExitOutcome>,
          warned: bool)
    requires Settled(Queued(frames)) && Stream(Queued(frames)) == frames
    requires SupervisorOk(Here(HolderWith(size, frames, log, exit, warned)), Client(Some(Supervisor), Queued(frames)))
    requires Warnings(frames) == if warned then 1 else 0
    ensures Valid(RUN, HolderWith(size, frames, log, exit, warned))
  {
    hide SupervisorOk, Queued, Warnings;
    var h := HolderWith(size, frames, log, exit, warned);
    BareIsLawful();
    assert AttachedWriters(h.clients) == {};
    assert Settled(h.input);
  }

  // ----- output whose place is lost -----

  /** What a hello is answered with before the child has written anything. */
  function ScreenAt(size: Size): Frame {
    FrameOf(RUN, Snapshot(Blanks(size), size, 1, 0, 0, 0))
  }

  const PANE: Size := Size(24, 80)
  const SCREEN: Frame := ScreenAt(PANE)
  const OUTPUT: Frame := FrameOf(RUN, Output(0, [7]))

  lemma {:induction false} OutputQueued()
    ensures var s := [SCREEN, OUTPUT];
            && FromLog(s, [7]) && Forward(s) && Tiled(s) && ExitsShown(s) && WarnsFirst(s) && NoExit(s)
            && End(s) == 1 && Told(s) == 0 && Warnings(s) == 0 && Advances(s, 0)
  {
    var s := [SCREEN, OUTPUT];
    Append(BARE, [], SCREEN);
    Append(BARE, [SCREEN], OUTPUT);
    assert [] + [SCREEN] == [SCREEN] && [SCREEN] + [OUTPUT] == s;
    assert s[..0] == [];
    assert [7][0..1] == [7];
  }

  lemma {:induction false} EarlyOk(h: Holder<Size>)
    requires h == HolderWith(PANE, [SCREEN, OUTPUT], [7], None, false)
    requires Stream(Queued([SCREEN, OUTPUT])) == [SCREEN, OUTPUT]
    ensures SupervisorOk(Here(h), Client(Some(Supervisor), Queued([SCREEN, OUTPUT])))
  {
    hide Queued, FromLog, Forward, Tiled, ExitsShown, WarnsFirst, End, Told, Warnings, Advances;
    OutputQueued();
  }

  /** A holder early in its run, with a snapshot and the first output queued for its supervisor. */
  lemma {:induction false} Early() returns (h: Holder<Size>)
    ensures Valid(RUN, h) && h.clients.Keys == {0} && IsSupervisor(h.clients[0])
    ensures h.resetWarning.Unneeded? && h.exit.None? && !h.late
    ensures exists steps :: Reaches(Empty(CLIENT_OUTBOX_BYTES), steps, h.clients[0].outbox)
    ensures Settled(h.clients[0].outbox) && h.clients[0].outbox.consumer.Waiting?
    ensures Forward(Frames(h.clients[0])) && Tiled(Frames(h.clients[0])) && OutputBehind(h.clients[0])
  {
    hide Settled, Reaches, Valid, Tiled, Forward, SupervisorOk, Warnings, Weight, Queued, Advances, OutputBehind;
    var queued := QueuedReached([SCREEN, OUTPUT]);
    OutputQueued();
    h := HolderWith(PANE, [SCREEN, OUTPUT], [7], None, false);
    EarlyOk(h);
    HolderWithValid(PANE, [SCREEN, OUTPUT], [7], None, false);
    var before := h.clients[0];
    assert before.outbox == Queued([SCREEN, OUTPUT]);
    assert Reaches(Empty(CLIENT_OUTBOX_BYTES), queued, before.outbox);
    EarlyAtRisk(before);
  }

  lemma {:induction false} EarlyAtRisk(before: Client)
    requires before.outbox.consumed == [] && Frames(before) == [SCREEN, OUTPUT] && Advances([SCREEN, OUTPUT], 0)
    ensures OutputBehind(before)
  {
    hide Advances;
    assert Frames(before)[1].value.Output?;
  }

  /** The log's first byte is queued behind the snapshot that says where it goes; then the emulator
      fails on a chunk and everyone is resynced. The supervisor can end up with the byte and not the
      snapshot. */
  lemma {:induction false} OvertakingLosesTheTiling() returns (h: Holder<Size>, event: Event, after: Holder<Size>)
    ensures Valid(RUN, h) && Handled(RUN, h, event, after)
    ensures h.clients.Keys == {0} && IsSupervisor(h.clients[0]) && 0 in after.clients && IsSupervisor(after.clients[0])
    ensures exists steps :: Reaches(Empty(CLIENT_OUTBOX_BYTES), steps, h.clients[0].outbox)
    ensures exists steps :: Reaches(h.clients[0].outbox, steps, after.clients[0].outbox)
    ensures Tiled(Frames(h.clients[0])) && !Tiled(Frames(after.clients[0]))
  {
    hide Settled, Tiled, Reaches, OutputBehind, Raced, Handled, Valid, Forward;
    h := Early();
    var before := h.clients[0];
    event := ChildOutput(FATAL, Logging([], [], true, false));
    var due := h.(resetWarning := Pending);
    var out := Out(RUN, due);
    TilingSurvivesExactlyWhen(before, out.snapshot, [out.warning], []);
    var client :| Raced(before, client, out.snapshot, [out.warning], []) && !Tiled(Frames(client));
    after := due.(clients := map[0 := client], resetWarning := Sent, warned := Some(0));
    ResetHandled(h, client, event, after);
  }

  lemma {:induction false} ResetHandled(h: Holder<Size>, client: Client, event: Event, after: Holder<Size>)
    requires h.clients.Keys == {0} && IsSupervisor(h.clients[0]) && h.resetWarning.Unneeded? && h.exit.None? && !h.late
    requires event == ChildOutput(FATAL, Logging([], [], true, false))
    requires var due := h.(resetWarning := Pending);
             && Raced(h.clients[0], client, Out(RUN, due).snapshot, [Out(RUN, due).warning], [])
             && after == due.(clients := map[0 := client], resetWarning := Sent, warned := Some(0))
    ensures Handled(RUN, h, event, after) && IsSupervisor(after.clients[0])
    ensures exists steps :: Reaches(h.clients[0].outbox, steps, after.clients[0].outbox)
  {
    ResetResynced(h, client, after);
    hide Raced, ResetSent, Out;
    assert h.log + [] == h.log;
  }

  lemma {:induction false} ResetResynced(h: Holder<Size>, client: Client, after: Holder<Size>)
    requires h.clients.Keys == {0} && IsSupervisor(h.clients[0]) && h.resetWarning.Unneeded? && h.exit.None?
    requires var due := h.(resetWarning := Pending);
             && Resynced(h.clients[0], client, Out(RUN, due).snapshot, [Out(RUN, due).warning], [])
             && after == due.(clients := map[0 := client], resetWarning := Sent, warned := Some(0))
    ensures ResetSent(RUN, h, after) && client.role == h.clients[0].role
  {
    var due := h.(resetWarning := Pending);
    assert Out(RUN, due).exits == [] && client.role == h.clients[0].role;
    hide Resynced, Out;
    assert InRole(due.clients, Anyone) == {0};
  }

  // ----- an exit without its screen, a warning after it -----

  /** As large as a PTY may be: a byte a cell is then more than an outbox's cap. */
  const WALL: Size := Size(1000, 2000)
  const BIG_SCREEN: Frame := ScreenAt(WALL)
  const WARNING: Frame := FrameOf(RUN, Warning(SCREEN_RESET_WARNING))
  const EXIT: Frame := FrameOf(RUN, Exited(Succeeded))

  /** What a supervisor that says hello after the exit is sent, with the warning still owed. */
  function Farewell(): seq<Frame> {
    [BIG_SCREEN, WARNING, EXIT]
  }

  lemma {:induction false} ExitQueued()
    ensures FromLog(Farewell(), []) && Forward(Farewell()) && Tiled(Farewell()) && ExitsShown(Farewell())
    ensures WarnsFirst(Farewell())
    ensures End(Farewell()) == 0 && Told(Farewell()) == 0 && Warnings(Farewell()) == 1
    ensures Hears(Farewell(), Exited(Succeeded))
    ensures Weight(Farewell()) > CLIENT_OUTBOX_BYTES
  {
    Append(BARE, [], BIG_SCREEN);
    Append(BARE, [BIG_SCREEN], WARNING);
    Append(BARE, [BIG_SCREEN, WARNING], EXIT);
    assert [] + [BIG_SCREEN] == [BIG_SCREEN] && [BIG_SCREEN] + [WARNING] == [BIG_SCREEN, WARNING];
    assert [BIG_SCREEN, WARNING] + [EXIT] == Farewell();
    assert Farewell()[2].value == Exited(Succeeded);
    WeightOfAppend([BIG_SCREEN, WARNING], EXIT);
    WeightOfAppend([BIG_SCREEN], WARNING);
    WeightOfAppend<Message>([], BIG_SCREEN);
  }

  lemma {:induction false} PartingOk(h: Holder<Size>)
    requires h == HolderWith(WALL, Farewell(), [], Some(Succeeded), true) && Stream(Queued(Farewell())) == Farewell()
    ensures SupervisorOk(Here(h), Client(Some(Supervisor), Queued(Farewell())))
  {
    hide Farewell, Queued, FromLog, Forward, Tiled, ExitsShown, WarnsFirst, End, Told, Hears, Weight, Warnings;
    ExitQueued();
  }

  /** Its exit could lose its screen, */
  lemma {:induction false} PartingScreenAtRisk(before: Client)
    requires before.outbox.consumed == [] && Frames(before) == Farewell()
    ensures ScreenAtRisk(before)
  {
    hide ScreenFrom;
    assert Farewell()[2].value.Exited? && !ScreenTaken(before, 2);
  }

  /** and its warning come late. */
  lemma {:induction false} PartingWarningAtRisk(before: Client)
    requires before.outbox.channel == Farewell() && Frames(before) == Farewell()
    ensures WarningAtRisk(before, [])
  {
    assert Farewell()[2].value.Exited? && Farewell()[1].value.Warning?;
  }

  lemma OutSendable(run: Run<Size>, h: Holder<Size>)
    ensures Sendable(Out(run, h).snapshot, [], Out(run, h).exits)
  {
  }

  /** The supervisor's outbox then: too full for a refusal, and both orders at risk. */
  lemma {:induction false} PartingClient(before: Client)
    requires before == Client(Some(Supervisor), Queued(Farewell()))
    ensures exists steps :: Reaches(Empty(CLIENT_OUTBOX_BYTES), steps, before.outbox)
    ensures Settled(before.outbox) && before.outbox.consumer.Waiting? && Frames(before) == Farewell()
    ensures Overfull(before.outbox, FrameOf(RUN, Rejected(ChildUnavailable)))
    ensures ExitsShown(Frames(before)) && ScreenAtRisk(before)
    ensures WarnsFirst(Frames(before)) && WarningAtRisk(before, [])
  {
    hide Farewell, Settled, Reaches, Tiled, Forward, FromLog, ExitsShown, WarnsFirst, End, Told, Hears, Warnings,
         Weight, Queued, ScreenAtRisk, WarningAtRisk;
    var queued := QueuedReached(Farewell());
    ExitQueued();
    PartingScreenAtRisk(before);
    PartingWarningAtRisk(before);
  }

  /** A holder whose child has exited, with all of that queued for its supervisor. */
  lemma {:induction false} Parting() returns (h: Holder<Size>)
    ensures Valid(RUN, h) && h.clients.Keys == {0} && !h.late
    ensures h.clients[0] == Client(Some(Supervisor), Queued(Farewell()))
  {
    hide Farewell, Settled, Valid, SupervisorOk, Queued, Reaches, Weight, Warnings, Overfull, ScreenAtRisk,
         WarningAtRisk, ExitsShown, WarnsFirst;
    h := HolderWith(WALL, Farewell(), [], Some(Succeeded), true);
    PartingClient(h.clients[0]);
    PartingOk(h);
    ExitQueued();
    HolderWithValid(WALL, Farewell(), [], Some(Succeeded), true);
  }

  /** What the holder does when its supervisor then asks to kill the child that is gone: the refusal does
      not fit, so the supervisor is resynced. */
  ghost function KillRefused(h: Holder<Size>, client: Client): Holder<Size> {
    h.(signals := h.signals + [Asked(0, Kill)], clients := map[0 := client])
  }

  lemma {:induction false} KillHandled(h: Holder<Size>, client: Client)
    requires h.clients.Keys == {0} && IsSupervisor(h.clients[0])
    requires Raced(h.clients[0], client, Out(RUN, h).snapshot, [], Out(RUN, h).exits)
    requires Overfull(h.clients[0].outbox, FrameOf(RUN, Rejected(ChildUnavailable)))
    ensures Handled(RUN, h, Says(0, Controls(Kill)), KillRefused(h, client)) && IsSupervisor(client)
    ensures exists steps :: Reaches(h.clients[0].outbox, steps, client.outbox)
  {
    hide Settled, Kept, Dropped, WarningsIn, Reaches, Out;
    var after := KillRefused(h, client);
    assert Resynced(h.clients[0], client, Out(RUN, h).snapshot, [], Out(RUN, h).exits);
    assert Reached(h.clients[0], client, FrameOf(RUN, Rejected(ChildUnavailable)),
                   Out(RUN, h).snapshot, Out(RUN, h).exits);
    assert OnlyTold(RUN, h, after, 0, Rejected(ChildUnavailable));
  }

  /** The supervisor can end up with the exit and not the screen the child left. */
  lemma {:induction false} OvertakingHidesTheScreen() returns (h: Holder<Size>, after: Holder<Size>)
    ensures Valid(RUN, h) && Handled(RUN, h, Says(0, Controls(Kill)), after)
    ensures h.clients.Keys == {0} && IsSupervisor(h.clients[0]) && 0 in after.clients && IsSupervisor(after.clients[0])
    ensures exists steps :: Reaches(Empty(CLIENT_OUTBOX_BYTES), steps, h.clients[0].outbox)
    ensures exists steps :: Reaches(h.clients[0].outbox, steps, after.clients[0].outbox)
    ensures Overfull(h.clients[0].outbox, FrameOf(RUN, Rejected(ChildUnavailable)))
    ensures ExitsShown(Frames(h.clients[0])) && !ExitsShown(Frames(after.clients[0]))
  {
    hide Farewell, Overfull, Settled, Reaches, Valid, Raced, Handled, ExitsShown, WarnsFirst, Queued, ScreenAtRisk,
         WarningAtRisk, Out, Sendable;
    h := Parting();
    var before, out := h.clients[0], Out(RUN, h);
    PartingClient(before);
    OutSendable(RUN, h);
    ScreensSurviveExactlyWhen(before, out.snapshot, [], out.exits);
    var client :| Raced(before, client, out.snapshot, [], out.exits) && !ExitsShown(Frames(client));
    after := KillRefused(h, client);
    KillHandled(h, client);
  }

  /** The supervisor can end up with the warning after the exit. */
  lemma {:induction false} OvertakingWarnsTooLate() returns (h: Holder<Size>, after: Holder<Size>)
    ensures Valid(RUN, h) && Handled(RUN, h, Says(0, Controls(Kill)), after) && !h.late
    ensures h.clients.Keys == {0} && IsSupervisor(h.clients[0]) && 0 in after.clients && IsSupervisor(after.clients[0])
    ensures exists steps :: Reaches(Empty(CLIENT_OUTBOX_BYTES), steps, h.clients[0].outbox)
    ensures exists steps :: Reaches(h.clients[0].outbox, steps, after.clients[0].outbox)
    ensures Overfull(h.clients[0].outbox, FrameOf(RUN, Rejected(ChildUnavailable)))
    ensures WarnsFirst(Frames(h.clients[0])) && !WarnsFirst(Frames(after.clients[0]))
  {
    hide Farewell, Overfull, Settled, Reaches, Valid, Raced, Handled, ExitsShown, WarnsFirst, Queued, ScreenAtRisk,
         WarningAtRisk, Out, Sendable;
    h := Parting();
    var before, out := h.clients[0], Out(RUN, h);
    PartingClient(before);
    OutSendable(RUN, h);
    WarningsSurviveExactlyWhen(before, out.snapshot, [], out.exits);
    var client :| Raced(before, client, out.snapshot, [], out.exits) && !WarnsFirst(Frames(client));
    after := KillRefused(h, client);
    KillHandled(h, client);
  }
}

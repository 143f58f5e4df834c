/** The state the holder loop keeps, and what holds of it between events. */
module HolderState {
  import opened ByteQueues
  import opened Basics
  import opened HolderProtocol
  import opened HolderStreams
  import opened HolderClients
  import opened HolderTable

  const CLIENT_OUTBOX_BYTES: nat := 1024 * 1024
  const CHILD_INPUT_BYTES: nat := 1024 * 1024
  const SCREEN_RESET_WARNING: string :=
    "the terminal emulator failed on the process's output; its screen was reset"

  /** What the holder did to its child, and for whom. */
  datatype Signal = Asked(client: ClientId, control: Control) | GraceKill | DeadlineKill

  /** What stays the same for one child: its terminal, how long each message is on the wire, its
      pid and where its run starts in the log. */
  datatype Run<!S> = Run(terminal: Terminal<S>, wireLen: Message -> nat, pid: nat, runStart: nat)

  /** The fields the holder loop updates. The last four only record what happened: who was sent
      the reset warning, whether the child spoke after its exit, whether the PTY ever refused a
      size, and how many connections there were. */
  datatype Holder<S> = Holder(
    screen: S,
    log: Bytes,
    input: Queue<Bytes>,
    clients: Clients,
    resizes: seq<(ClientId, Size)>,
    size: Size,
    exit: Option<ExitOutcome>,
    childExited: bool,
    supervised: bool,
    reportedAttached: nat,
    resetWarning: ResetWarning,
    signals: seq<Signal>,
    graces: seq<nat>,
    warned: Option<ClientId>,
    late: bool,
    refused: bool,
    connections: nat)

  function Here<S>(h: Holder<S>): Now<S> {
    Now(h.screen, h.log, h.exit, h.reportedAttached, h.late)
  }

  function Everyone<S>(h: Holder<S>): Table {
    Table(h.clients, h.resetWarning, h.warned)
  }

  function FrameOf<S>(run: Run<S>, m: Message): Frame {
    Item(m, run.wireLen(m))
  }

  /** The frames a resync would be made of in this state. */
  function Out<S>(run: Run<S>, h: Holder<S>): Outgoing {
    Outgoing(
      FrameOf(run, Snapshot(run.terminal.repaint(h.screen), h.size, run.pid, WritableAttached(h.clients),
                            run.runStart, |h.log|)),
      if h.exit.Some? then [FrameOf(run, Exited(h.exit.value))] else [],
      FrameOf(run, Warning(SCREEN_RESET_WARNING)))
  }

  /** Everything but the attach count told and the sizes asked for. */
  ghost predicate Steady<S(!new)>(run: Run<S>, h: Holder<S>) {
    && Lawful(run.terminal) && run.terminal.sizeOf(h.screen) == h.size
    && Serves(run.terminal, Here(h), Everyone(h), h.supervised)
    && h.childExited == h.exit.Some? && (h.late ==> h.childExited)
    && Settled(h.input)
    && (forall c :: c in h.clients ==> c < h.connections)
    && (h.warned.Some? ==> h.warned.value < h.connections)
  }

  ghost predicate Counted<S>(h: Holder<S>) {
    h.reportedAttached == WritableAttached(h.clients)
  }

  ghost predicate Sized<S>(h: Holder<S>) {
    SizesOk(h.clients, h.resizes, h.size, h.refused)
  }

  /** Between events. */
  ghost predicate Valid<S(!new)>(run: Run<S>, h: Holder<S>) {
    Steady(run, h) && Counted(h) && Sized(h)
  }

  /** A change of outboxes alone, which keeps everyone here in the same role. */
  ghost predicate OnlyOutboxes<S>(before: Holder<S>, after: Holder<S>) {
    after == before.(clients := after.clients) && SameRoles(before.clients, after.clients)
  }

  /** The reset warning goes from unneeded to pending to sent, and once sent to whom it was sent. */
  ghost predicate WarnsOnward<S>(before: Holder<S>, after: Holder<S>) {
    && (after.resetWarning.Unneeded? ==> before.resetWarning.Unneeded?)
    && (before.resetWarning.Sent? ==> after.resetWarning.Sent? && after.warned == before.warned)
  }

  /** A chunk the emulator fails on makes the warning due, and sends it if there is a supervisor;
      any other leaves it alone. */
  ghost predicate WarnedOfReset<S>(run: Run<S>, before: Holder<S>, after: Holder<S>, bytes: Bytes) {
    && WarnsOnward(before, after)
    && after.resetWarning ==
         if run.terminal.feed(before.screen, bytes).Processed? then before.resetWarning
         else if NoSupervisor(before.clients) && !before.resetWarning.Sent? then Pending
         else Sent
  }

  lemma OutgoingHere<S(!new)>(run: Run<S>, h: Holder<S>)
    requires run.terminal.sizeOf(h.screen) == h.size
    ensures OutgoingOf(run.terminal, Here(h), Out(run, h))
    ensures Out(run, h).snapshot.value.attached == WritableAttached(h.clients)
  {
  }

  lemma SameRolesSized(before: Clients, after: Clients, resizes: seq<(ClientId, Size)>, size: Size, refused: bool)
    requires SameRoles(before, after) && SizesOk(before, resizes, size, refused)
    ensures SizesOk(after, resizes, size, refused)
  {
  }

  /** The size asked for last, once the PTY has it or has refused it. */
  lemma SizeTaken(before: Clients, after: Clients, resizes: seq<(ClientId, Size)>, was: Size, size: Size,
                  unsure: bool, refused: bool)
    requires SameRoles(before, after) && SizesOk(before, resizes, was, unsure)
    requires resizes != [] && !refused ==> if unsure then resizes[|resizes| - 1].1 == size else size == was
    ensures SizesOk(after, resizes, size, refused)
  {
  }

  // ----- what that means for clients -----

  /** Replaying any attach client's frames gives exactly the holder's screen, at its size. */
  ghost predicate Converged<S>(run: Run<S>, h: Holder<S>) {
    && run.terminal.sizeOf(h.screen) == h.size
    && forall c :: c in h.clients && h.clients[c].role.Some? && h.clients[c].role.value.Attach? ==>
         Replay(run.terminal, Frames(h.clients[c])) == Some(h.screen)
  }

  /** A supervisor's output frames are the log's own bytes, never go back, and come as far as the
      log does; unless its writer overtook a clear, each starts exactly where the one before left off. */
  ghost predicate LogFollowed<S>(h: Holder<S>) {
    forall c :: c in h.clients && IsSupervisor(h.clients[c]) ==>
      && FromLog(Frames(h.clients[c]), h.log) && Forward(Frames(h.clients[c]))
      && End(Frames(h.clients[c])) == |h.log|
      && (!h.clients[c].outbox.overtaken ==> Tiled(Frames(h.clients[c])))
  }

  /** Once the child has exited everyone introduced hears so; a supervisor right after the screen
      it left, unless its writer overtook a clear. */
  ghost predicate ExitHeard<S>(h: Holder<S>) {
    && (h.exit.Some? ==> forall c :: c in h.clients && h.clients[c].role.Some? ==>
          Hears(Frames(h.clients[c]), Exited(h.exit.value)))
    && forall c :: c in h.clients && IsSupervisor(h.clients[c]) && !h.clients[c].outbox.overtaken ==>
         ExitsShown(Frames(h.clients[c]))
  }

  /** The warning, once sent, is exactly once in the frames of the one it was sent to and nowhere
      else; never after an exit unless the child spoke on or the writer overtook a clear; and it
      waits only while there is no supervisor. */
  ghost predicate ResetWarned<S>(h: Holder<S>) {
    && WarnedOnce(h.clients, h.resetWarning, h.warned)
    && (h.resetWarning.Pending? ==> NoSupervisor(h.clients))
    && forall c :: c in h.clients && IsSupervisor(h.clients[c]) && !h.clients[c].outbox.overtaken && !h.late ==>
         WarnsFirst(Frames(h.clients[c]))
  }

  /** The count reported is the writable attach clients connected, and the supervisor's last word on it. */
  ghost predicate CountKnown<S>(h: Holder<S>) {
    && h.reportedAttached == WritableAttached(h.clients)
    && forall c :: c in h.clients && IsSupervisor(h.clients[c]) ==> Told(Frames(h.clients[c])) == h.reportedAttached
  }

  lemma {:induction false} ValidMeans<S(!new)>(run: Run<S>, h: Holder<S>)
    requires Valid(run, h)
    ensures Converged(run, h) && LogFollowed(h) && ExitHeard(h) && ResetWarned(h) && CountKnown(h)
    ensures OneSupervisor(h.clients) && SizesOk(h.clients, h.resizes, h.size, h.refused)
  {
    hide Lawful, Inv, Replay, FromLog, Forward, End, Tiled, Hears, ExitsShown, Warnings, WarnsFirst, Told, SizesOk;
    assert forall c :: c in h.clients ==> ClientOk(run.terminal, Here(h), h.clients[c]);
  }

  lemma {:induction false} ValidFacts<S(!new)>(run: Run<S>, h: Holder<S>)
    requires Valid(run, h)
    ensures Counted(h) && (h.resetWarning.Pending? ==> NoSupervisor(h.clients))
    ensures forall c :: c in h.clients ==> c < h.connections
  {
    hide ClientOk, Sized, Warnings, Lawful, Settled;
  }
}

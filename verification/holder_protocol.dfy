/** The messages between holder and clients, and what the holder relies on its terminal and log for. */
module HolderProtocol {
  import opened Basics
  import opened ByteQueues

  type ClientId = nat

  datatype Size = Size(rows: nat, cols: nat)

  datatype Role = Supervisor | Attach(readOnly: bool)

  /** All but those attached read-only may type and ask for sizes. */
  predicate Writable(role: Role) {
    role != Attach(true)
  }

  predicate Supervises(role: Role) {
    role.Supervisor?
  }

  predicate Attaches(role: Role) {
    role.Attach?
  }

  predicate Anyone(role: Role) {
    true
  }

  datatype ExitOutcome = Succeeded | Failed(cause: int)

  datatype RejectReason =
    | HelloRequired | AlreadyIntroduced | ReadOnly | SupervisorOnly
    | NotExited | ChildUnavailable | InputBacklogged

  datatype Control = Pause | Resume | Terminate(signal: int, grace: nat) | Kill

  /** What a client sends. */
  datatype Request = Hello(role: Role) | Input(bytes: Bytes) | Resize(size: Size)
                   | Controls(control: Control) | CollectExit

  /** What the holder sends. */
  datatype Message =
    | Snapshot(repaint: Bytes, size: Size, pid: nat, attached: nat, runStart: nat, logEnd: nat)
    | Output(at: nat, bytes: Bytes)
    | Unlogged(bytes: Bytes)
    | Exited(outcome: ExitOutcome)
    | Rejected(reason: RejectReason)
    | Warning(text: string)
    | Attached(count: nat)

  /** An encoded message: the message and its length on the wire. */
  type Frame = Item<Message>

  /** Where the warning that the screen was reset stands. */
  datatype ResetWarning = Unneeded | Pending | Sent

  /** A chunk through the emulator and keyboard tracker: taken, or too much for the emulator,
      which is then reset. */
  datatype Fed<S> = Processed(screen: S) | Panicked(screen: S)

  /** The terminal, the emulator and keyboard tracker together, as functions on its state. */
  datatype Terminal<!S> = Terminal(
    blank: Size -> S,
    sizeOf: S -> Size,
    feed: (S, Bytes) -> Fed<S>,
    replies: (S, Bytes) -> Bytes,
    resize: (S, Size) -> S,
    repaint: S -> Bytes,
    rebuild: (Size, Bytes) -> S)

  /** What the holder relies on: a repaint rebuilds the state it was taken of, a resize gives the
      size asked for, and neither output nor a reset changes the size. */
  ghost predicate Lawful<S(!new)>(t: Terminal<S>) {
    && (forall s :: t.rebuild(t.sizeOf(s), t.repaint(s)) == s)
    && (forall s, bytes :: t.sizeOf(t.feed(s, bytes).screen) == t.sizeOf(s))
    && (forall s, size :: t.sizeOf(t.resize(s, size)) == size)
    && (forall size :: t.sizeOf(t.blank(size)) == size)
  }

  /** How the gate and the log took a chunk: what the gate kept of it, what the log then held,
      whether the log took it all, and whether what it held is the chunk itself, unmoved. */
  datatype Logging = Logging(logged: Bytes, held: Bytes, ok: bool, whole: bool)

  /** The log holds what the gate kept, perhaps with a line end after it, cut short only when a
      write failed. */
  ghost predicate LoggingOf(l: Logging, bytes: Bytes) {
    && (l.whole ==> l.held == bytes)
    && (l.logged <= l.held || (!l.ok && l.held <= l.logged))
  }

  /** What the gate kept and the log could not hold. */
  function UnloggedPart(l: Logging): Bytes {
    if l.ok || |l.held| > |l.logged| then [] else l.logged[|l.held|..]
  }

  /** All the gate kept is sent on: what the log held of it and what it could not are all of it, in order
      and without repeats, or the log held more. */
  lemma KeptIsSent(l: Logging, bytes: Bytes)
    requires LoggingOf(l, bytes)
    ensures l.held + UnloggedPart(l) == l.logged || (UnloggedPart(l) == [] && l.logged <= l.held)
    ensures l.ok ==> UnloggedPart(l) == []
  {
  }
}

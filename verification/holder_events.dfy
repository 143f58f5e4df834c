/**
 What the holder loop is sent, and what it makes of each event: a relation between the state before
 and the state after that says what becomes of every field.
 */
module HolderEvents {
  import opened ByteQueues
  import opened Basics
  import opened HolderProtocol
  import opened HolderClients
  import opened HolderTable
  import opened HolderState

  datatype Flow = Continue | Finish

  /** What the loop takes off its channel; `WriterRuns` is no message but a client's writer taking
      frames between two. */
  datatype Event =
    | ChildOutput(bytes: Bytes, logging: Logging)
    | ChildExited(outcome: ExitOutcome)
    | ChildOther
    | GraceElapsed
    | SupervisorDeadline
    | Connected(client: ClientId, cloned: bool)
    | Says(client: ClientId, request: Request)
    | Disconnected(client: ClientId)
    | WriterRuns(client: ClientId)

  /** Whether serving goes on, and why not. */
  datatype Ending = Open | Collected(client: ClientId) | Unsupervised

  /** What the senders of events keep to: the log holds what it says it does, and connections are
      numbered upwards. */
  ghost predicate EventsFrom(events: seq<Event>, next: nat)
    decreases |events|
  {
    events == [] || (
      && (events[0].ChildOutput? ==> LoggingOf(events[0].logging, events[0].bytes))
      && (events[0].Connected? ==> events[0].client >= next)
      && EventsFrom(events[1..], if events[0].Connected? then events[0].client + 1 else next))
  }

  // ----- who may ask for what -----

  /** The reason a request is refused on sight, if it is. */
  function Refusal<S>(h: Holder<S>, client: ClientId, request: Request): Option<RejectReason>
    requires client in h.clients
  {
    match h.clients[client].role
    case None => if request.Hello? then None else Some(HelloRequired)
    case Some(role) =>
      if request.Hello? then Some(AlreadyIntroduced)
      else if (request.Input? || request.Resize?) && !Writable(role) then Some(ReadOnly)
      else if (request.Controls? || request.CollectExit?) && role != Supervisor then Some(SupervisorOnly)
      else if request.CollectExit? && h.exit.None? then Some(NotExited)
      else None
  }

  /** A request is let through exactly when it introduces the client, or comes from one introduced
      and is input or a size from one not attached read-only, a control from the supervisor, or its
      collection of an exit there is. */
  lemma AllowedExactlyWhen<S>(h: Holder<S>, client: ClientId, request: Request)
    requires client in h.clients
    ensures var role := h.clients[client].role;
            Refusal(h, client, request).None? <==>
              || (role.None? && request.Hello?)
              || (role.Some? && role.value != Attach(true) && (request.Input? || request.Resize?))
              || (role == Some(Supervisor) && (request.Controls? || (request.CollectExit? && h.exit.Some?)))
  {
  }

  /** And why it is refused otherwise. */
  lemma RefusedForReason<S>(h: Holder<S>, client: ClientId, request: Request)
    requires client in h.clients
    ensures var role, refusal := h.clients[client].role, Refusal(h, client, request);
            && (refusal == Some(HelloRequired) <==> role.None? && !request.Hello?)
            && (refusal == Some(AlreadyIntroduced) <==> role.Some? && request.Hello?)
            && (refusal == Some(ReadOnly) <==> role == Some(Attach(true)) && (request.Input? || request.Resize?))
            && (refusal == Some(SupervisorOnly) <==>
                  role.Some? && role.value.Attach? && (request.Controls? || request.CollectExit?))
            && (refusal == Some(NotExited) <==> role == Some(Supervisor) && request.CollectExit? && h.exit.None?)
            && refusal != Some(ChildUnavailable) && refusal != Some(InputBacklogged)
  {
  }

  // ----- what comes of a message -----

  ghost predicate OnlyTold<S>(run: Run<S>, before: Holder<S>, after: Holder<S>, client: ClientId, message: Message) {
    Broadcast(before.clients, after.clients, {client}, FrameOf(run, message), Out(run, before))
  }

  /** Some are gone and the rest are as they were. */
  ghost predicate RestStay(before: Clients, after: Clients, gone: set<ClientId>) {
    && after.Keys == before.Keys - gone
    && forall c :: c in after ==> after[c].role == before[c].role
  }

  /** A message sent to one client: it gets it, or a resync in its place, or goes if it has no role and
      no room. */
  ghost predicate Delivered<S>(run: Run<S>, before: Holder<S>, after: Holder<S>, client: ClientId, message: Message) {
    if client !in before.clients then after == before
    else if before.clients[client].role.Some? then
      OnlyOutboxes(before, after) && OnlyTold(run, before, after, client, message)
    else if client in after.clients then
      && OnlyOutboxes(before, after) && after.clients == before.clients[client := after.clients[client]]
      && Appended(before.clients[client], after.clients[client], FrameOf(run, message))
    else Overfull(before.clients[client].outbox, FrameOf(run, message)) && Departed(run, before, after, {client})
  }

  /** A client told of a refusal alone; one yet to say hello whose outbox is full is dropped. */
  ghost predicate Refused<S>(run: Run<S>, before: Holder<S>, after: Holder<S>, client: ClientId, reason: RejectReason) {
    if client in after.clients then Delivered(run, before, after, client, Rejected(reason))
    else
      && client in before.clients && before.clients[client].role.None?
      && Overfull(before.clients[client].outbox, FrameOf(run, Rejected(reason)))
      && after == before.(clients := before.clients - {client})
  }

  /** The supervisor told the count of writable attach clients, unless it is the one on record. */
  ghost predicate CountTold<S>(run: Run<S>, h: Holder<S>, after: Clients) {
    var count := WritableAttached(h.clients);
    if count == h.reportedAttached then after == h.clients
    else Broadcast(h.clients, after, InRole(h.clients, Supervises), FrameOf(run, Attached(count)), Out(run, h))
  }

  /** Every attach client, and no one else, resynced to a screen whose size changed; no one when it
      did not. */
  ghost predicate SizeTold<S>(run: Run<S>, h: Holder<S>, changed: bool, after: Clients) {
    if !changed then after == h.clients
    else ResyncedAll(Everyone(h), Everyone(h).(clients := after), InRole(h.clients, Attaches), Out(run, h))
  }

  /** Input queued for the child, or refused when the child is not reading. */
  ghost predicate Typed<S>(run: Run<S>, before: Holder<S>, after: Holder<S>, client: ClientId, bytes: Bytes) {
    && OnlyOutboxes(before.(input := after.input), after)
    && (|| (Pushed(before.input, after.input, Item(bytes, |bytes|)) && after.clients == before.clients)
        || (&& Overfull(before.input, Item(bytes, |bytes|)) && Ran(before.input, after.input)
            && OnlyTold(run, before, after, client, Rejected(InputBacklogged))))
  }

  /** Another size lays the screen out anew; the same one leaves it. */
  ghost predicate Redrawn<S>(run: Run<S>, before: Holder<S>, after: Holder<S>) {
    after.screen == if after.size == before.size then before.screen else run.terminal.resize(before.screen, after.size)
  }

  /** The PTY has the size, or keeps another and is on record as having refused. */
  ghost predicate TookOrRefused<S>(before: Holder<S>, after: Holder<S>, size: Size) {
    if after.size == size then after.refused == before.refused else after.size == before.size && after.refused
  }

  /** A size asked for, now the latest; the PTY has it and the attach clients its screen, or the one
      who asked is told it refused. */
  ghost predicate Resized<S>(run: Run<S>, before: Holder<S>, after: Holder<S>, client: ClientId, size: Size) {
    && after == before.(clients := after.clients, resizes := Without(before.resizes, {client}) + [(client, size)],
                        size := after.size, screen := after.screen, refused := after.refused)
    && SameRoles(before.clients, after.clients)
    && Redrawn(run, before, after) && TookOrRefused(before, after, size)
    && if after.size == size
       then SizeTold(run, after.(clients := before.clients), after.size != before.size, after.clients)
       else OnlyTold(run, before, after, client, Rejected(ChildUnavailable))
  }

  /** A control run against the child for its supervisor, who is told if the child refuses it; a
      graceful stop the child takes arms a timer for its grace. */
  ghost predicate Controlled<S>(run: Run<S>, before: Holder<S>, after: Holder<S>, client: ClientId, control: Control) {
    && OnlyOutboxes(before.(signals := before.signals + [Asked(client, control)], graces := after.graces), after)
    && (|| (&& after.clients == before.clients
            && after.graces == before.graces + if control.Terminate? then [control.grace] else [])
        || (OnlyTold(run, before, after, client, Rejected(ChildUnavailable)) && after.graces == before.graces))
  }

  ghost predicate SameLatest(before: seq<(ClientId, Size)>, after: seq<(ClientId, Size)>) {
    before != [] && after != [] && before[|before| - 1] == after[|after| - 1]
  }

  /** Once those who asked for the latest size are gone, the PTY takes the one asked for before it. */
  ghost predicate FellBack<S>(run: Run<S>, before: Holder<S>, after: Holder<S>) {
    && Redrawn(run, before, after)
    && if after.resizes == [] || SameLatest(before.resizes, after.resizes)
       then after.size == before.size && after.refused == before.refused
       else TookOrRefused(before, after, after.resizes[|after.resizes| - 1].1)
  }

  /** The sends a departure calls for: the count to the supervisor left, then the screen to the
      attach clients left. */
  ghost predicate DepartureTold<S>(run: Run<S>, before: Holder<S>, counted: Clients, after: Holder<S>,
          gone: set<ClientId>)
  {
    && CountTold(run, before.(clients := before.clients - gone), counted)
    && SizeTold(run, after.(clients := counted), after.size != before.size, after.clients)
  }

  /** Clients gone, and with them the sizes they asked for. */
  ghost predicate Departed<S>(run: Run<S>, before: Holder<S>, after: Holder<S>, gone: set<ClientId>) {
    && after == before.(clients := after.clients, resizes := Without(before.resizes, gone), size := after.size,
                        screen := after.screen, refused := after.refused,
                        reportedAttached := WritableAttached(before.clients - gone))
    && RestStay(before.clients, after.clients, gone) && FellBack(run, before, after)
    && exists counted :: DepartureTold(run, before, counted, after, gone)
  }

  /** Who has to go for a client to take a role: for a supervisor, the one before. */
  function Evicted(clients: Clients, role: Role): set<ClientId> {
    if role.Supervisor? then InRole(clients, Supervises) else {}
  }

  /** A client in its new role, resynced, and with the warning owed if it supervises. */
  ghost predicate Admitted<S>(run: Run<S>, before: Holder<S>, after: Holder<S>, client: ClientId, role: Role) {
    && client in before.clients
    && var named := before.(clients := before.clients[client := before.clients[client].(role := Some(role))]);
       && after == named.(clients := after.clients, resetWarning := after.resetWarning, warned := after.warned)
       && ResyncedAll(Everyone(named), Everyone(after), {client}, Out(run, named))
  }

  /** The sends of a greeting: those for whoever it evicts, the client's resync, then the count to the
      supervisor. */
  ghost predicate GreetingTold<S>(run: Run<S>, before: Holder<S>, cleared: Holder<S>, admitted: Holder<S>,
          after: Holder<S>, client: ClientId, role: Role)
  {
    && Departed(run, before.(supervised := before.supervised || role.Supervisor?), cleared,
                Evicted(before.clients, role))
    && Admitted(run, cleared, admitted, client, role)
    && CountTold(run, admitted, after.clients)
    && after == admitted.(clients := after.clients, reportedAttached := after.reportedAttached)
  }

  /** A client given its role, for which a new supervisor evicts the one before and gets the warning
      still owed. */
  ghost predicate Greeted<S(!new)>(run: Run<S>, before: Holder<S>, after: Holder<S>, client: ClientId, role: Role) {
    var gone, owed := Evicted(before.clients, role), role.Supervisor? && before.resetWarning.Pending?;
    && after == before.(clients := after.clients, resizes := Without(before.resizes, gone), size := after.size,
                        screen := after.screen, refused := after.refused,
                        reportedAttached := WritableAttached(after.clients),
                        supervised := before.supervised || role.Supervisor?,
                        resetWarning := if owed then Sent else before.resetWarning,
                        warned := if owed then Some(client) else before.warned)
    && after.clients.Keys == before.clients.Keys - gone
    && client in after.clients && after.clients[client].role == Some(role)
    && (forall c :: c in after.clients && c != client ==>
          c in before.clients && after.clients[c].role == before.clients[c].role)
    && FellBack(run, before, after)
    && exists cleared, admitted :: GreetingTold(run, before, cleared, admitted, after, client, role)
  }

  /** What comes of a request that is not refused on sight. */
  ghost predicate Obeyed<S(!new)>(run: Run<S>, before: Holder<S>, after: Holder<S>, client: ClientId,
          request: Request)
  {
    match request
    case Hello(role) => Greeted(run, before, after, client, role)
    case Input(bytes) => Typed(run, before, after, client, bytes)
    case Resize(size) => Resized(run, before, after, client, size)
    case Controls(control) => Controlled(run, before, after, client, control)
    case CollectExit => after == before
  }

  /** What comes of a client's message; of one from a client gone, nothing. */
  ghost predicate Heeded<S(!new)>(run: Run<S>, before: Holder<S>, after: Holder<S>, client: ClientId,
          request: Request)
  {
    if client !in before.clients then after == before
    else
      var refusal := Refusal(before, client, request);
      if refusal.Some? then Refused(run, before, after, client, refusal.value)
      else Obeyed(run, before, after, client, request)
  }

  // ----- what comes of the child's output and exit -----

  /** What the log held of a chunk sent to the supervisor, then all of it to the others; or one frame
      to both when that is the same. */
  ghost predicate OutputTold<S>(run: Run<S>, next: Holder<S>, held: Clients, whole: Clients, bytes: Bytes,
          logging: Logging)
  {
    var at, out := |next.log| - |logging.held|, Out(run, next);
    && at >= 0
    && if logging.whole then
         && Broadcast(next.clients, held, InRole(next.clients, Anyone), FrameOf(run, Output(at, bytes)), out)
         && whole == held
       else
         && (if logging.held == [] then held == next.clients
             else Broadcast(next.clients, held, InRole(next.clients, Supervises),
                            FrameOf(run, Output(at, logging.held)), out))
         && Broadcast(held, whole, InRole(held, Attaches), FrameOf(run, Output(at, bytes)), out)
  }

  /** The supervisor alone is sent the part of a chunk that is not in the log, if there is one. */
  ghost predicate RestTold<S>(run: Run<S>, next: Holder<S>, whole: Clients, after: Clients, logging: Logging) {
    if UnloggedPart(logging) == [] then after == whole
    else Broadcast(whole, after, InRole(whole, Supervises),
                   FrameOf(run, Unlogged(UnloggedPart(logging))), Out(run, next))
  }

  ghost predicate Sends<S>(run: Run<S>, next: Holder<S>, held: Clients, whole: Clients, after: Clients, bytes: Bytes,
          logging: Logging)
  {
    OutputTold(run, next, held, whole, bytes, logging) && RestTold(run, next, whole, after, logging)
  }

  ghost predicate OutputSent<S>(run: Run<S>, next: Holder<S>, after: Clients, bytes: Bytes, logging: Logging) {
    exists held, whole :: Sends(run, next, held, whole, after, bytes, logging)
  }

  /** All with a role are resynced to the screen the emulator was reset to, the supervisor with the
      warning if it has not been sent. */
  ghost predicate ResetSent<S>(run: Run<S>, next: Holder<S>, after: Holder<S>) {
    var due := next.(resetWarning := if next.resetWarning.Unneeded? then Pending else next.resetWarning);
    && after == due.(clients := after.clients, resetWarning := after.resetWarning, warned := after.warned)
    && ResyncedAll(Everyone(due), Everyone(after), InRole(due.clients, Anyone), Out(run, due))
  }

  ghost predicate Replied(before: Queue<Bytes>, after: Queue<Bytes>, replies: Bytes) {
    if replies == [] then after == before
    else
      var item := Item(replies, |replies|);
      Pushed(before, after, item) || (Overfull(before, item) && Ran(before, after))
  }

  /** Output taken into the screen and the log, and everyone told. */
  ghost predicate Absorbed<S>(run: Run<S>, before: Holder<S>, after: Holder<S>, bytes: Bytes, logging: Logging) {
    var fed := run.terminal.feed(before.screen, bytes);
    var next := before.(screen := fed.screen, log := before.log + logging.held);
    && SameRoles(before.clients, after.clients)
    && if fed.Processed?
       then after == next.(clients := after.clients) && OutputSent(run, next, after.clients, bytes, logging)
       else ResetSent(run, next, after)
  }

  /** The same, with the queries in the output answered. */
  ghost predicate Spoke<S>(run: Run<S>, before: Holder<S>, after: Holder<S>, bytes: Bytes, logging: Logging) {
    && Replied(before.input, after.input, run.terminal.replies(before.screen, bytes))
    && Absorbed(run, before.(input := after.input, late := before.late || before.exit.Some?), after, bytes, logging)
  }

  /** The sends of an exit: the final screen to the supervisor, then the exit to everyone. */
  ghost predicate ExitSends<S>(run: Run<S>, next: Holder<S>, shown: Clients, after: Clients, outcome: ExitOutcome) {
    && Broadcast(next.clients, shown, InRole(next.clients, Supervises), Out(run, next).snapshot, Out(run, next))
    && Broadcast(shown, after, InRole(shown, Anyone), FrameOf(run, Exited(outcome)), Out(run, next))
  }

  /** The exit held and everyone told of it. */
  ghost predicate Ended<S>(run: Run<S>, before: Holder<S>, after: Holder<S>, outcome: ExitOutcome) {
    var next := before.(exit := Some(outcome), childExited := true, late := before.late || before.exit.Some?);
    && after == next.(clients := after.clients) && SameRoles(before.clients, after.clients)
    && exists shown :: ExitSends(run, next, shown, after.clients, outcome)
  }

  // ----- any event -----

  /** What the child is sent for an event: a kill once its grace or the wait for a supervisor is
      over, if it still runs, and what its supervisor asks. */
  function SentFor<S>(h: Holder<S>, event: Event): seq<Signal> {
    match event
    case GraceElapsed => if h.childExited then [] else [GraceKill]
    case SupervisorDeadline => if h.supervised || h.childExited then [] else [DeadlineKill]
    case Says(client, request) =>
      if request.Controls? && client in h.clients && IsSupervisor(h.clients[client])
      then [Asked(client, request.control)] else []
    case _ => []
  }

  function Joined<S>(h: Holder<S>, client: ClientId, cloned: bool): Holder<S> {
    h.(connections := client + 1,
       clients := if cloned then h.clients[client := Client(None, Empty(CLIENT_OUTBOX_BYTES))] else h.clients)
  }

  /** A client's writer took frames. */
  ghost predicate Wrote<S>(before: Holder<S>, after: Holder<S>, client: ClientId) {
    if client !in before.clients then after == before
    else
      && client in after.clients && Ran(before.clients[client].outbox, after.clients[client].outbox)
      && var wrote := before.clients[client].(outbox := after.clients[client].outbox);
         after == before.(clients := before.clients[client := wrote])
  }

  /** What the holder makes of an event. */
  ghost predicate Handled<S(!new)>(run: Run<S>, before: Holder<S>, event: Event, after: Holder<S>) {
    match event
    case ChildOutput(bytes, logging) => Spoke(run, before, after, bytes, logging)
    case ChildExited(outcome) => Ended(run, before, after, outcome)
    case ChildOther => after == before
    case GraceElapsed => after == before.(signals := before.signals + SentFor(before, event))
    case SupervisorDeadline => after == before.(signals := before.signals + SentFor(before, event))
    case Connected(client, cloned) => after == Joined(before, client, cloned)
    case Says(client, request) => Heeded(run, before, after, client, request)
    case Disconnected(client) => Departed(run, before, after, {client})
    case WriterRuns(client) => Wrote(before, after, client)
  }

  /** How an event ends serving, if it does: the supervisor collects the exit there is, or the wait
      for a first supervisor is over. */
  function EndingOf<S>(h: Holder<S>, event: Event): Ending {
    match event
    case SupervisorDeadline => if h.supervised then Open else Unsupervised
    case Says(client, request) =>
      if request.CollectExit? && client in h.clients && IsSupervisor(h.clients[client]) && h.exit.Some?
      then Collected(client) else Open
    case _ => Open
  }

  /** The states a holder goes through, event by event, until one ends serving. */
  ghost predicate Trace<S(!new)>(run: Run<S>, states: seq<Holder<S>>, events: seq<Event>) {
    && 0 < |states| <= |events| + 1
    && (forall i :: 0 <= i < |states| - 1 ==> Handled(run, states[i], events[i], states[i + 1]))
    && (forall i :: 0 <= i < |states| - 1 && events[i].Connected? ==> events[i].client >= states[i].connections)
    && (forall i :: 0 <= i < |states| - 2 ==> EndingOf(states[i], events[i]).Open?)
  }
}

/** What holds over whole runs of a holder, as `Serve` gives them: one state after another. */
module HolderRuns {
  import opened ByteQueues
  import opened Basics
  import opened HolderProtocol
  import opened HolderStreams
  import opened HolderClients
  import opened HolderTable
  import opened HolderState
  import opened HolderEvents
  import Sieve

  // ----- one event -----

  /** A client takes the supervisor's role. */
  predicate TakesCharge<S>(h: Holder<S>, event: Event) {
    event.Says? && event.request == Hello(Supervisor) && event.client in h.clients && h.clients[event.client].role.None?
  }

  /** A client that may asks for a size. */
  predicate Asks<S>(h: Holder<S>, event: Event) {
    && event.Says? && event.request.Resize? && event.client in h.clients
    && h.clients[event.client].role.Some? && h.clients[event.client].role.value != Attach(true)
  }

  /** Who is gone once an event is handled, because of it. */
  function GoneBy<S>(h: Holder<S>, event: Event): set<ClientId> {
    if event.Disconnected? then {event.client}
    else if TakesCharge(h, event) then InRole(h.clients, Supervises)
    else {}
  }

  function ResizesAfter<S>(h: Holder<S>, event: Event): seq<(ClientId, Size)> {
    if Asks(h, event) then Without(h.resizes, {event.client}) + [(event.client, event.request.size)]
    else Without(h.resizes, GoneBy(h, event))
  }

  /** What an event does to the record of the run; the PTY is on record as refusing only when it
      keeps another size than the latest asked for. */
  ghost predicate Changes<S>(before: Holder<S>, event: Event, after: Holder<S>) {
    && after.signals == before.signals + SentFor(before, event)
    && after.supervised == (before.supervised || TakesCharge(before, event))
    && after.resizes == ResizesAfter(before, event)
    && after.log == (if event.ChildOutput? then before.log + event.logging.held else before.log)
    && after.exit == (if event.ChildExited? then Some(event.outcome) else before.exit)
    && after.childExited == (before.childExited || event.ChildExited?)
    && after.connections == (if event.Connected? then event.client + 1 else before.connections)
    && (if before.refused then after.refused
        else after.refused ==> !HasLatest(after))
    && WarnsOnward(before, after)
  }

  /** The PTY has the latest size asked for, if any. */
  predicate HasLatest<S>(h: Holder<S>) {
    h.resizes != [] ==> h.size == h.resizes[|h.resizes| - 1].1
  }

  /** Who stays, in the role it had: all but those gone by the event, and one without a role that is
      refused something. Who joins: one whose connection could be cloned, told nothing yet. */
  ghost predicate Stays<S>(before: Holder<S>, event: Event, after: Holder<S>) {
    && (forall c :: c in after.clients ==>
          || (c in before.clients && c !in GoneBy(before, event))
          || (event.Connected? && event.cloned && c == event.client))
    && (forall c :: c in before.clients && c !in GoneBy(before, event) && c < before.connections ==>
          Keeps(before, event, after, c))
    && (event.Connected? && event.cloned ==>
          event.client in after.clients && after.clients[event.client] == Client(None, Empty(1024 * 1024)))
  }

  ghost predicate Keeps<S>(before: Holder<S>, event: Event, after: Holder<S>, c: ClientId)
    requires c in before.clients
  {
    var role := before.clients[c].role;
    if event.Says? && event.client == c && role.None? then
      if event.request.Hello? then c in after.clients && after.clients[c].role == Some(event.request.role)
      else c in after.clients ==> after.clients[c].role.None?
    else c in after.clients && after.clients[c].role == role
  }

  lemma {:induction false} WithoutNone(resizes: seq<(ClientId, Size)>)
    ensures Without(resizes, {}) == resizes
  {
    WithoutAbsent(resizes, {});
  }

  lemma {:induction false} GreetedChanges<S(!new)>(run: Run<S>, before: Holder<S>, after: Holder<S>, client: ClientId,
          role: Role)
    requires client in before.clients && before.clients[client].role.None? && Greeted(run, before, after, client, role)
    ensures Changes(before, Says(client, Hello(role)), after) && Stays(before, Says(client, Hello(role)), after)
  {
    hide Without, InRole, Redrawn, GreetingTold, WritableAttached;
    assert GoneBy(before, Says(client, Hello(role))) == Evicted(before.clients, role);
  }

  lemma {:induction false} ResizedChanges<S(!new)>(run: Run<S>, before: Holder<S>, after: Holder<S>, client: ClientId,
          size: Size)
    requires client in before.clients && Asks(before, Says(client, Resize(size)))
    requires Resized(run, before, after, client, size)
    ensures Changes(before, Says(client, Resize(size)), after) && Stays(before, Says(client, Resize(size)), after)
  {
    hide Without, OnlyTold, Redrawn, SizeTold;
  }

  lemma {:induction false} RefusedChanges<S(!new)>(run: Run<S>, before: Holder<S>, after: Holder<S>, client: ClientId,
          request: Request)
    requires client in before.clients && Refusal(before, client, request).Some?
    requires Refused(run, before, after, client, Refusal(before, client, request).value)
    ensures Changes(before, Says(client, request), after) && Stays(before, Says(client, request), after)
  {
    hide Without, Refused;
    RefusedKeeps(run, before, after, client, Refusal(before, client, request).value);
    WithoutNone(before.resizes);
  }

  lemma {:induction false} RefusedKeeps<S(!new)>(run: Run<S>, before: Holder<S>, after: Holder<S>, client: ClientId,
          reason: RejectReason)
    requires Refused(run, before, after, client, reason)
    ensures after == before.(clients := after.clients)
    ensures forall c :: c in after.clients ==> c in before.clients
    ensures forall c :: c in before.clients && (c != client || before.clients[c].role.Some?) ==>
      c in after.clients && after.clients[c].role == before.clients[c].role
    ensures client in after.clients ==>
      client in before.clients && after.clients[client].role == before.clients[client].role
  {
    hide OnlyTold, Departed, Appended, Overfull;
  }

  lemma {:induction false} MessageChanges<S(!new)>(run: Run<S>, before: Holder<S>, client: ClientId, request: Request,
          after: Holder<S>)
    requires Heeded(run, before, after, client, request)
    ensures Changes(before, Says(client, request), after) && Stays(before, Says(client, request), after)
  {
    hide Refused, Greeted, Resized, Typed, Controlled, Changes, Stays;
    if client !in before.clients {
      NothingChanges(before, Says(client, request));
    } else if Refusal(before, client, request).Some? {
      RefusedChanges(run, before, after, client, request);
    } else {
      match request
      case Hello(role) => GreetedChanges(run, before, after, client, role);
      case Input(bytes) => TypedChanges(run, before, after, client, bytes);
      case Resize(size) => ResizedChanges(run, before, after, client, size);
      case Controls(control) => ControlledChanges(run, before, after, client, control);
      case CollectExit => NothingChanges(before, Says(client, request));
    }
  }

  lemma {:induction false} NothingChanges<S(!new)>(h: Holder<S>, event: Event)
    requires event.Says? && (event.client in h.clients ==> event.request.CollectExit?)
    ensures Changes(h, event, h) && Stays(h, event, h)
  {
    hide Without;
    WithoutNone(h.resizes);
  }

  lemma {:induction false} TypedChanges<S(!new)>(run: Run<S>, before: Holder<S>, after: Holder<S>, client: ClientId,
          bytes: Bytes)
    requires Typed(run, before, after, client, bytes)
    ensures Changes(before, Says(client, Input(bytes)), after) && Stays(before, Says(client, Input(bytes)), after)
  {
    hide Without, OnlyTold, Ran, Pushed;
    WithoutNone(before.resizes);
  }

  lemma {:induction false} ControlledChanges<S(!new)>(run: Run<S>, before: Holder<S>, after: Holder<S>,
          client: ClientId, control: Control)
    requires client in before.clients && IsSupervisor(before.clients[client])
    requires Controlled(run, before, after, client, control)
    ensures Changes(before, Says(client, Controls(control)), after)
    ensures Stays(before, Says(client, Controls(control)), after)
  {
    hide Without, OnlyTold;
    WithoutNone(before.resizes);
  }

  lemma {:induction false} DepartedChanges<S(!new)>(run: Run<S>, before: Holder<S>, after: Holder<S>, client: ClientId)
    requires Departed(run, before, after, {client})
    ensures Changes(before, Disconnected(client), after) && Stays(before, Disconnected(client), after)
  {
    hide Without, Redrawn, DepartureTold, WritableAttached;
  }

  lemma {:induction false} SpokeChanges<S(!new)>(run: Run<S>, before: Holder<S>, after: Holder<S>, bytes: Bytes,
          logging: Logging)
    requires Spoke(run, before, after, bytes, logging)
    ensures Changes(before, ChildOutput(bytes, logging), after) && Stays(before, ChildOutput(bytes, logging), after)
  {
    hide Without, OutputSent, ResetSent, Replied;
    if run.terminal.feed(before.screen, bytes).Panicked? {
      var screen := run.terminal.feed(before.screen, bytes).screen;
      ResetChanges(run, before.(screen := screen, log := before.log + logging.held, input := after.input,
                                late := before.late || before.exit.Some?), after);
    }
    WithoutNone(before.resizes);
  }

  lemma {:induction false} ResetChanges<S(!new)>(run: Run<S>, next: Holder<S>, after: Holder<S>)
    requires ResetSent(run, next, after)
    ensures after == next.(clients := after.clients, resetWarning := after.resetWarning, warned := after.warned)
    ensures WarnsOnward(next, after)
  {
    hide Resynced, Out, InRole, SameRoles;
  }

  /** A chunk the emulator fails on makes the warning due, and sends it if there is a supervisor to
      send it to and it was not sent before; any other chunk leaves it alone. */
  lemma {:induction false} ResetWarns<S(!new)>(run: Run<S>, before: Holder<S>, after: Holder<S>, bytes: Bytes,
          logging: Logging)
    requires Spoke(run, before, after, bytes, logging)
    ensures WarnedOfReset(run, before, after, bytes)
  {
    hide OutputSent, ResetSent, Replied, NoSupervisor;
    if run.terminal.feed(before.screen, bytes).Panicked? {
      var screen := run.terminal.feed(before.screen, bytes).screen;
      var next := before.(screen := screen, log := before.log + logging.held, input := after.input,
                          late := before.late || before.exit.Some?);
      ResetChanges(run, next, after);
      ResetSends(run, next, after);
    }
  }

  lemma {:induction false} ResetSends<S(!new)>(run: Run<S>, next: Holder<S>, after: Holder<S>)
    requires ResetSent(run, next, after)
    ensures after.resetWarning == if NoSupervisor(next.clients) && !next.resetWarning.Sent? then Pending else Sent
  {
    hide Resynced, Out, SameRoles;
    if !NoSupervisor(next.clients) {
      var c :| c in next.clients && IsSupervisor(next.clients[c]);
      assert c in InRole(next.clients, Anyone);
    }
  }

  /** What an event does to the record of the run and to who is connected. */
  lemma {:induction false} EventChanges<S(!new)>(run: Run<S>, before: Holder<S>, event: Event, after: Holder<S>)
    requires Handled(run, before, event, after) && (event.Connected? ==> event.client >= before.connections)
    ensures Changes(before, event, after) && Stays(before, event, after)
  {
    hide Without, Heeded, Departed, Spoke, Ended, Wrote, Joined, InRole, Changes, Stays;
    match event
    case ChildOutput(bytes, logging) => SpokeChanges(run, before, after, bytes, logging);
    case ChildExited(outcome) => EndedChanges(run, before, after, outcome);
    case Says(client, request) => MessageChanges(run, before, client, request, after);
    case Disconnected(client) => DepartedChanges(run, before, after, client);
    case Connected(client, cloned) => JoinedChanges(before, client, cloned);
    case WriterRuns(client) => WroteChanges(before, after, client);
    case _ => SignalledChanges(before, event);
  }

  lemma {:induction false} EndedChanges<S(!new)>(run: Run<S>, before: Holder<S>, after: Holder<S>, outcome: ExitOutcome)
    requires Ended(run, before, after, outcome)
    ensures Changes(before, ChildExited(outcome), after) && Stays(before, ChildExited(outcome), after)
  {
    hide Without, ExitSends;
    WithoutNone(before.resizes);
  }

  lemma {:induction false} JoinedChanges<S(!new)>(before: Holder<S>, client: ClientId, cloned: bool)
    requires client >= before.connections
    ensures var event, after := Connected(client, cloned), Joined(before, client, cloned);
            Changes(before, event, after) && Stays(before, event, after)
  {
    hide Without;
    WithoutNone(before.resizes);
  }

  lemma {:induction false} WroteChanges<S(!new)>(before: Holder<S>, after: Holder<S>, client: ClientId)
    requires Wrote(before, after, client)
    ensures Changes(before, WriterRuns(client), after) && Stays(before, WriterRuns(client), after)
  {
    hide Without, Ran;
    WithoutNone(before.resizes);
  }

  lemma {:induction false} SignalledChanges<S(!new)>(before: Holder<S>, event: Event)
    requires event.ChildOther? || event.GraceElapsed? || event.SupervisorDeadline?
    ensures var signals := before.signals + SentFor(before, event);
            var after := if event.ChildOther? then before else before.(signals := signals);
            Changes(before, event, after) && Stays(before, event, after)
  {
    hide Without;
    WithoutNone(before.resizes);
  }

  lemma {:induction false} StepChanges<S(!new)>(run: Run<S>, states: seq<Holder<S>>, events: seq<Event>, k: nat)
    requires Trace(run, states, events) && k < |states| - 1
    ensures Changes(states[k], events[k], states[k + 1]) && Stays(states[k], events[k], states[k + 1])
  {
    hide Handled, Changes, Stays;
    EventChanges(run, states[k], events[k], states[k + 1]);
  }

  // ----- authority -----

  /** The child had exited by state `k`. */
  ghost predicate ExitedBefore<S>(states: seq<Holder<S>>, events: seq<Event>, k: nat)
    requires k < |states| <= |events| + 1
  {
    states[0].childExited || exists j :: 0 <= j < k && events[j].ChildExited?
  }

  lemma {:induction false} ExitedOverRun<S(!new)>(run: Run<S>, states: seq<Holder<S>>, events: seq<Event>, n: nat)
    requires Trace(run, states, events) && n < |states|
    ensures states[n].childExited <==> ExitedBefore(states, events, n)
    decreases n
  {
    if n > 0 {
      hide Handled, EndingOf, Stays, ResizesAfter, TakesCharge, HasLatest, WarnsOnward, SentFor;
      ExitedOverRun(run, states, events, n - 1);
      StepChanges(run, states, events, n - 1);
    }
  }

  /** What event `k` is to have the child sent: a kill when a grace is over and the child has not
      exited; a kill at the deadline when it has not and no client ever took charge; what the
      supervisor of the moment asks. */
  ghost function CalledFor<S>(states: seq<Holder<S>>, events: seq<Event>, k: nat): seq<Signal>
    requires k + 1 < |states| <= |events| + 1
  {
    match events[k]
    case GraceElapsed => if ExitedBefore(states, events, k) then [] else [GraceKill]
    case SupervisorDeadline =>
      if ExitedBefore(states, events, k) || states[0].supervised || ChargeTaken(states, events, k)
      then [] else [DeadlineKill]
    case Says(client, Controls(control)) =>
      if client in states[k].clients && states[k].clients[client].role == Some(Supervisor)
      then [Asked(client, control)] else []
    case _ => []
  }

  ghost function SentOver<S>(states: seq<Holder<S>>, events: seq<Event>, n: nat): seq<Signal>
    requires n < |states| <= |events| + 1
    decreases n
  {
    if n == 0 then [] else SentOver(states, events, n - 1) + CalledFor(states, events, n - 1)
  }

  /** Over a run the child is sent what each event calls for, in order, and nothing else. */
  lemma {:induction false} SignalsOverRun<S(!new)>(run: Run<S>, states: seq<Holder<S>>, events: seq<Event>, n: nat)
    requires Trace(run, states, events) && n < |states|
    ensures states[n].signals == states[0].signals + SentOver(states, events, n)
    decreases n
  {
    if n > 0 {
      hide Trace, CalledFor;
      var k := n - 1;
      SignalsOverRun(run, states, events, k);
      StepSends(run, states, events, k);
      Sieve.Regroup(states[0].signals, SentOver(states, events, k), CalledFor(states, events, k));
    }
  }

  lemma {:induction false} StepSends<S(!new)>(run: Run<S>, states: seq<Holder<S>>, events: seq<Event>, k: nat)
    requires Trace(run, states, events) && k < |states| - 1
    ensures states[k + 1].signals == states[k].signals + CalledFor(states, events, k)
  {
    hide Trace, Stays, ResizesAfter, TakesCharge, HasLatest, WarnsOnward, ExitedBefore, ChargeTaken;
    StepChanges(run, states, events, k);
    ExitedOverRun(run, states, events, k);
    SupervisedOverRun(run, states, events, k);
  }

  /** A grace runs out on a child that has not exited. */
  ghost predicate GraceUp<S>(states: seq<Holder<S>>, events: seq<Event>, k: nat)
    requires k < |events| && k < |states| <= |events| + 1
  {
    events[k].GraceElapsed? && !ExitedBefore(states, events, k)
  }

  /** The deadline comes for a child that has not exited and that no client ever took charge of. */
  ghost predicate DeadlineUp<S>(states: seq<Holder<S>>, events: seq<Event>, k: nat)
    requires k < |events| && k < |states| <= |events| + 1
  {
    && events[k].SupervisorDeadline? && !ExitedBefore(states, events, k)
    && !states[0].supervised && !ChargeTaken(states, events, k)
  }

  ghost function GracesUp<S>(states: seq<Holder<S>>, events: seq<Event>, n: nat): set<nat>
    requires n < |states| <= |events| + 1
  {
    set k | 0 <= k < n && GraceUp(states, events, k)
  }

  ghost function DeadlinesUp<S>(states: seq<Holder<S>>, events: seq<Event>, n: nat): set<nat>
    requires n < |states| <= |events| + 1
  {
    set k | 0 <= k < n && DeadlineUp(states, events, k)
  }

  lemma {:induction false} GracesUpNext<S(!new)>(states: seq<Holder<S>>, events: seq<Event>, k: nat)
    requires k + 1 < |states| <= |events| + 1
    ensures |GracesUp(states, events, k + 1)|
         == |GracesUp(states, events, k)| + if GraceUp(states, events, k) then 1 else 0
  {
    hide GraceUp;
    var were, are := GracesUp(states, events, k), GracesUp(states, events, k + 1);
    if GraceUp(states, events, k) {
      assert are == were + {k};
    } else {
      assert are == were;
    }
  }

  lemma {:induction false} DeadlinesUpNext<S(!new)>(states: seq<Holder<S>>, events: seq<Event>, k: nat)
    requires k + 1 < |states| <= |events| + 1
    ensures |DeadlinesUp(states, events, k + 1)|
         == |DeadlinesUp(states, events, k)| + if DeadlineUp(states, events, k) then 1 else 0
  {
    hide DeadlineUp;
    var were, are := DeadlinesUp(states, events, k), DeadlinesUp(states, events, k + 1);
    if DeadlineUp(states, events, k) {
      assert are == were + {k};
    } else {
      assert are == were;
    }
  }

  function Count(signals: seq<Signal>, signal: Signal): nat
    decreases |signals|
  {
    if signals == [] then 0
    else Count(signals[..|signals| - 1], signal) + if signals[|signals| - 1] == signal then 1 else 0
  }

  lemma {:induction false} CountOfConcat(a: seq<Signal>, b: seq<Signal>, signal: Signal)
    ensures Count(a + b, signal) == Count(a, signal) + Count(b, signal)
    decreases |b|
  {
    if b == [] {
      assert a + b == a;
    } else {
      CountOfConcat(a, b[..|b| - 1], signal);
      assert (a + b)[..|a + b| - 1] == a + b[..|b| - 1];
    }
  }

  lemma {:induction false} CountOfOne(a: Signal, signal: Signal)
    ensures Count([a], signal) == if a == signal then 1 else 0
  {
    assert [a][..0] == [];
  }

  lemma {:induction false} KillsCalledFor<S(!new)>(states: seq<Holder<S>>, events: seq<Event>, k: nat)
    requires k + 1 < |states| <= |events| + 1
    ensures Count(CalledFor(states, events, k), GraceKill) == if GraceUp(states, events, k) then 1 else 0
    ensures Count(CalledFor(states, events, k), DeadlineKill) == if DeadlineUp(states, events, k) then 1 else 0
  {
    hide ExitedBefore, ChargeTaken, Count;
    var called := CalledFor(states, events, k);
    if called == [] {
      NoneCounted();
    } else {
      CountOfOne(called[0], GraceKill);
      CountOfOne(called[0], DeadlineKill);
    }
  }

  lemma NoneCounted()
    ensures Count([], GraceKill) == 0 && Count([], DeadlineKill) == 0
  {
  }

  /** Over a run the child is killed once for each grace that runs out while it lives, and once for
      each deadline no client had taken charge by; never otherwise, unless its supervisor asks. */
  lemma {:induction false} KillsOverRun<S(!new)>(run: Run<S>, states: seq<Holder<S>>, events: seq<Event>, n: nat)
    requires Trace(run, states, events) && n < |states|
    ensures Count(states[n].signals, GraceKill) == Count(states[0].signals, GraceKill) + |GracesUp(states, events, n)|
    ensures Count(states[n].signals, DeadlineKill)
         == Count(states[0].signals, DeadlineKill) + |DeadlinesUp(states, events, n)|
    decreases n
  {
    hide Handled, EndingOf, CalledFor, Count, GraceUp, DeadlineUp;
    if n > 0 {
      var k := n - 1;
      var called := CalledFor(states, events, k);
      KillsOverRun(run, states, events, k);
      StepSends(run, states, events, k);
      CountOfConcat(states[k].signals, called, GraceKill);
      CountOfConcat(states[k].signals, called, DeadlineKill);
      KillsCalledFor(states, events, k);
      GracesUpNext(states, events, k);
      DeadlinesUpNext(states, events, k);
    }
  }

  /** Each control the child was sent was asked for by the supervisor of the moment. */
  lemma {:induction false} ControlsOverRun<S(!new)>(run: Run<S>, states: seq<Holder<S>>, events: seq<Event>, n: nat,
          signal: Signal)
    returns (k: nat)
    requires Trace(run, states, events) && n < |states| && signal in SentOver(states, events, n) && signal.Asked?
    ensures k < n && ControlsAt(states[k], events[k], signal)
    decreases n
  {
    hide Handled, EndingOf, ExitedBefore, ChargeTaken;
    if signal in CalledFor(states, events, n - 1) {
      k := n - 1;
    } else {
      k := ControlsOverRun(run, states, events, n - 1, signal);
    }
  }

  predicate ControlsAt<S>(h: Holder<S>, event: Event, signal: Signal)
    requires signal.Asked?
  {
    && event == Says(signal.client, Controls(signal.control))
    && signal.client in h.clients && IsSupervisor(h.clients[signal.client])
  }

  /** Some client took charge within the first `n` events. */
  ghost predicate ChargeTaken<S>(states: seq<Holder<S>>, events: seq<Event>, n: nat)
    requires n < |states| <= |events| + 1
  {
    exists k :: 0 <= k < n && TakesCharge(states[k], events[k])
  }

  lemma {:induction false} ChargeTakenNext<S>(states: seq<Holder<S>>, events: seq<Event>, n: nat)
    requires n + 1 < |states| <= |events| + 1
    ensures ChargeTaken(states, events, n + 1) <==> ChargeTaken(states, events, n) || TakesCharge(states[n], events[n])
  {
    hide TakesCharge;
  }

  /** The holder counts as supervised exactly when a client ever took charge. */
  lemma {:induction false} SupervisedOverRun<S(!new)>(run: Run<S>, states: seq<Holder<S>>, events: seq<Event>, n: nat)
    requires Trace(run, states, events) && n < |states|
    ensures states[n].supervised <==> states[0].supervised || ChargeTaken(states, events, n)
    decreases n
  {
    if n > 0 {
      hide Handled, EndingOf, Stays, ResizesAfter, TakesCharge, ChargeTaken, HasLatest, WarnsOnward, SentFor;
      SupervisedOverRun(run, states, events, n - 1);
      StepChanges(run, states, events, n - 1);
      ChargeTakenNext(states, events, n - 1);
    }
  }

  /** Serving ends only at its last event: by the one supervisor there is collecting the exit there is,
      or by the deadline when no client ever took charge. */
  lemma {:induction false} EndsOnlySo<S(!new)>(run: Run<S>, states: seq<Holder<S>>, events: seq<Event>, n: nat)
    requires Trace(run, states, events) && n < |states| - 1 && Valid(run, states[n]) && !states[0].supervised
    requires !EndingOf(states[n], events[n]).Open?
    ensures n == |states| - 2
    ensures match EndingOf(states[n], events[n])
            case Collected(client) =>
              && events[n] == Says(client, CollectExit) && states[n].exit.Some? && client in states[n].clients
              && forall c :: c in states[n].clients && IsSupervisor(states[n].clients[c]) <==> c == client
            case Unsupervised =>
              events[n].SupervisorDeadline? && !ChargeTaken(states, events, n)
            case Open => false
  {
    hide Handled, ClientOk, Warnings, Lawful, Counted, Sized;
    SupervisedOverRun(run, states, events, n);
  }

  /** A number used up by a client that is not here never comes back, and its messages do nothing. */
  lemma {:induction false} GoneForGood<S(!new)>(run: Run<S>, states: seq<Holder<S>>, events: seq<Event>, j: nat,
          k: nat, c: ClientId)
    requires Trace(run, states, events) && j <= k < |states|
    requires c < states[j].connections && c !in states[j].clients
    ensures c < states[k].connections && c !in states[k].clients
    ensures k < |states| - 1 && events[k].Says? && events[k].client == c ==> states[k + 1] == states[k]
    decreases k
  {
    hide Handled, EndingOf, ResizesAfter, TakesCharge, HasLatest, WarnsOnward, SentFor, InRole;
    if j < k {
      GoneForGood(run, states, events, j, k - 1, c);
      StepChanges(run, states, events, k - 1);
    }
    if k < |states| - 1 && events[k].Says? && events[k].client == c {
      Unheeded(run, states, events, k, c);
    }
  }

  lemma {:induction false} Unheeded<S(!new)>(run: Run<S>, states: seq<Holder<S>>, events: seq<Event>, k: nat,
          c: ClientId)
    requires Trace(run, states, events) && k < |states| - 1 && events[k].Says? && events[k].client == c
    requires c !in states[k].clients
    ensures states[k + 1] == states[k]
  {
    hide Obeyed, Refused;
    assert Handled(run, states[k], events[k], states[k + 1]);
  }

  // ----- the log and the warning -----

  function HeldOf(event: Event): Bytes {
    if event.ChildOutput? then event.logging.held else []
  }

  ghost function HeldOver(events: seq<Event>, n: nat): Bytes
    requires n <= |events|
    decreases n
  {
    if n == 0 then [] else HeldOver(events, n - 1) + HeldOf(events[n - 1])
  }

  /** The log is what was held of each chunk of output, in order; and a warning sent stays sent, to
      the one it was sent to. */
  lemma {:induction false} LogOverRun<S(!new)>(run: Run<S>, states: seq<Holder<S>>, events: seq<Event>, n: nat)
    requires Trace(run, states, events) && n < |states|
    ensures states[n].log == states[0].log + HeldOver(events, n)
    ensures WarnsOnward(states[0], states[n])
    decreases n
  {
    if n > 0 {
      hide Trace, HeldOf;
      LogOverRun(run, states, events, n - 1);
      StepLogs(run, states, events, n - 1);
      Sieve.Regroup(states[0].log, HeldOver(events, n - 1), HeldOf(events[n - 1]));
    }
  }

  lemma {:induction false} StepLogs<S(!new)>(run: Run<S>, states: seq<Holder<S>>, events: seq<Event>, k: nat)
    requires Trace(run, states, events) && k < |states| - 1
    ensures states[k + 1].log == states[k].log + HeldOf(events[k]) && WarnsOnward(states[k], states[k + 1])
  {
    hide Trace, Stays, ResizesAfter, TakesCharge, HasLatest, WarnsOnward, SentFor;
    StepChanges(run, states, events, k);
    assert states[k].log + [] == states[k].log;
  }

  // ----- the size -----

  /** Every size asked for by a client that may, oldest first; those on the list at the start count. */
  ghost function AskedOver<S>(states: seq<Holder<S>>, events: seq<Event>, n: nat): seq<(ClientId, Size)>
    requires n < |states| <= |events| + 1
    decreases n
  {
    if n == 0 then states[0].resizes
    else
      AskedOver(states, events, n - 1)
        + (if Asks(states[n - 1], events[n - 1]) then [(events[n - 1].client, events[n - 1].request.size)] else [])
  }

  /** The size last asked for by one of those here. */
  ghost function LatestAsk(asked: seq<(ClientId, Size)>, here: set<ClientId>): Option<Size>
    decreases |asked|
  {
    if asked == [] then None
    else if asked[|asked| - 1].0 in here then Some(asked[|asked| - 1].1)
    else LatestAsk(asked[..|asked| - 1], here)
  }

  /** The last each of those here asked for, in the order of asking. */
  ghost function Latests(asked: seq<(ClientId, Size)>, here: set<ClientId>): seq<(ClientId, Size)>
    decreases |asked|
  {
    if asked == [] then []
    else
      var front, last := asked[..|asked| - 1], asked[|asked| - 1];
      Without(Latests(front, here), {last.0}) + (if last.0 in here then [last] else [])
  }

  lemma {:induction false} LatestsHere(asked: seq<(ClientId, Size)>, here: set<ClientId>)
    ensures forall ask :: ask in Latests(asked, here) ==> ask.0 in here && ask in asked
    decreases |asked|
  {
    if asked != [] {
      var front, last := asked[..|asked| - 1], asked[|asked| - 1];
      LatestsHere(front, here);
      WithoutKeeps(Latests(front, here), {last.0});
      assert asked == front + [last];
    }
  }

  /** The last of them is the size last asked for. */
  lemma {:induction false} LatestsEnd(asked: seq<(ClientId, Size)>, here: set<ClientId>)
    ensures var latests, ask := Latests(asked, here), LatestAsk(asked, here);
            if latests == [] then ask.None? else ask == Some(latests[|latests| - 1].1)
    decreases |asked|
  {
    if asked != [] {
      var front, last := asked[..|asked| - 1], asked[|asked| - 1];
      LatestsEnd(front, here);
      if last.0 !in here {
        LatestsHere(front, here);
        WithoutAbsent(Latests(front, here), {last.0});
      }
    }
  }

  lemma {:induction false} WithoutConcat(a: seq<(ClientId, Size)>, b: seq<(ClientId, Size)>, gone: set<ClientId>)
    ensures Without(a + b, gone) == Without(a, gone) + Without(b, gone)
    decreases |b|
  {
    if b == [] {
      assert a + b == a;
    } else {
      var front, last := b[..|b| - 1], b[|b| - 1];
      WithoutConcat(a, front, gone);
      assert (a + b)[..|a + b| - 1] == a + front;
    }
  }

  lemma {:induction false} WithoutTwice(asked: seq<(ClientId, Size)>, first: set<ClientId>, second: set<ClientId>)
    ensures Without(Without(asked, first), second) == Without(asked, first + second)
    decreases |asked|
  {
    if asked != [] {
      var front, last := asked[..|asked| - 1], asked[|asked| - 1];
      WithoutTwice(front, first, second);
      WithoutConcat(Without(front, first), if last.0 in first then [] else [last], second);
      WithoutOne(last, second);
    }
  }

  lemma {:induction false} WithoutOne(ask: (ClientId, Size), gone: set<ClientId>)
    ensures Without([ask], gone) == if ask.0 in gone then [] else [ask]
  {
    assert [ask][..0] == [];
  }

  /** Those who go take their sizes with them, and those who asked for none change nothing. */
  lemma {:induction false} LatestsWithout(asked: seq<(ClientId, Size)>, here: set<ClientId>, later: set<ClientId>,
          gone: set<ClientId>)
    requires forall i :: 0 <= i < |asked| ==> (asked[i].0 in later <==> asked[i].0 in here && asked[i].0 !in gone)
    ensures Latests(asked, later) == Without(Latests(asked, here), gone)
    decreases |asked|
  {
    if asked != [] {
      var front, last := asked[..|asked| - 1], asked[|asked| - 1];
      LatestsWithout(front, here, later, gone);
      var latests := Latests(front, here);
      WithoutTwice(latests, gone, {last.0});
      WithoutTwice(latests, {last.0}, gone);
      assert gone + {last.0} == {last.0} + gone;
      WithoutConcat(Without(latests, {last.0}), if last.0 in here then [last] else [], gone);
      WithoutOne(last, gone);
    }
  }

  /** Everyone who asked had a role, and keeps it while here. */
  ghost predicate Askers<S>(h: Holder<S>, asked: seq<(ClientId, Size)>) {
    forall i :: 0 <= i < |asked| ==>
      asked[i].0 < h.connections && (asked[i].0 in h.clients ==> h.clients[asked[i].0].role.Some?)
  }

  /** The list of sizes is, over any run, the last each client still here asked for, in the order of
      asking. */
  lemma {:induction false} ResizesOverRun<S(!new)>(run: Run<S>, states: seq<Holder<S>>, events: seq<Event>, n: nat)
    requires Trace(run, states, events) && n < |states| && forall i :: 0 <= i <= n ==> Valid(run, states[i])
    ensures states[n].resizes == Latests(AskedOver(states, events, n), states[n].clients.Keys)
    ensures Askers(states[n], AskedOver(states, events, n))
    decreases n
  {
    hide Valid, Handled, EndingOf, Changes, Stays, Latests, Askers;
    if n == 0 {
      ListedAtFirst(run, states[0]);
    } else {
      ResizesOverRun(run, states, events, n - 1);
      StepChanges(run, states, events, n - 1);
      var asked, k := AskedOver(states, events, n - 1), n - 1;
      ConnectsUpwards(run, states, events, k);
      if Asks(states[k], events[k]) {
        AskedNow(run, states[k], events[k], states[n], asked);
      } else {
        NotAsked(run, states[k], events[k], states[n], asked);
        assert asked + [] == asked;
      }
    }
  }

  lemma ConnectsUpwards<S(!new)>(run: Run<S>, states: seq<Holder<S>>, events: seq<Event>, k: nat)
    requires Trace(run, states, events) && k < |states| - 1
    ensures Handled(run, states[k], events[k], states[k + 1])
    ensures (events[k].Connected? ==> events[k].client >= states[k].connections)
  {
  }

  lemma {:induction false} ListedAtFirst<S(!new)>(run: Run<S>, h: Holder<S>)
    requires Valid(run, h)
    ensures h.resizes == Latests(h.resizes, h.clients.Keys) && Askers(h, h.resizes)
  {
    hide Serves, Lawful, Settled;
    AllLatest(h.resizes, h.clients.Keys);
  }

  lemma {:induction false} AllLatest(asked: seq<(ClientId, Size)>, here: set<ClientId>)
    requires forall i, j :: 0 <= i < j < |asked| ==> asked[i].0 != asked[j].0
    requires forall i :: 0 <= i < |asked| ==> asked[i].0 in here
    ensures Latests(asked, here) == asked
    decreases |asked|
  {
    if asked != [] {
      var front, last := asked[..|asked| - 1], asked[|asked| - 1];
      AllLatest(front, here);
      WithoutAbsent(front, {last.0});
      assert asked == front + [last];
    }
  }

  lemma {:induction false} AskedNow<S(!new)>(run: Run<S>, before: Holder<S>, event: Event, after: Holder<S>,
          asked: seq<(ClientId, Size)>)
    requires Handled(run, before, event, after) && Asks(before, event) && Valid(run, before)
    requires before.resizes == Latests(asked, before.clients.Keys) && Askers(before, asked)
    ensures var more := asked + [(event.client, event.request.size)];
            after.resizes == Latests(more, after.clients.Keys) && Askers(after, more)
  {
    hide Without, OnlyTold, Redrawn, Serves, Lawful, Settled, Sized;
    var more := asked + [(event.client, event.request.size)];
    assert more[..|more| - 1] == asked;
    assert after.clients.Keys == before.clients.Keys;
  }

  lemma {:induction false} NotAsked<S(!new)>(run: Run<S>, before: Holder<S>, event: Event, after: Holder<S>,
          asked: seq<(ClientId, Size)>)
    requires Changes(before, event, after) && Stays(before, event, after) && !Asks(before, event)
    requires event.Connected? ==> event.client >= before.connections
    requires before.resizes == Latests(asked, before.clients.Keys) && Askers(before, asked)
    ensures after.resizes == Latests(asked, after.clients.Keys) && Askers(after, asked)
  {
    hide Without, Latests, HasLatest, WarnsOnward, SentFor, TakesCharge;
    LatestsWithout(asked, before.clients.Keys, after.clients.Keys, GoneBy(before, event));
  }

  /** In every state the PTY has the size last asked for by a client still connected, if there is
      one, unless it has refused a size. */
  lemma {:induction false} LatestSizeOverRun<S(!new)>(run: Run<S>, states: seq<Holder<S>>, events: seq<Event>, n: nat)
    requires Trace(run, states, events) && n < |states| && forall i :: 0 <= i <= n ==> Valid(run, states[i])
    ensures var latest := LatestAsk(AskedOver(states, events, n), states[n].clients.Keys);
            latest.Some? && !states[n].refused ==> states[n].size == latest.value
  {
    hide Handled, EndingOf, Steady, Latests, LatestAsk;
    ResizesOverRun(run, states, events, n);
    LatestsEnd(AskedOver(states, events, n), states[n].clients.Keys);
  }

  /** And it has refused one exactly when in some state it did not have the latest. */
  lemma {:induction false} RefusedOverRun<S(!new)>(run: Run<S>, states: seq<Holder<S>>, events: seq<Event>, n: nat)
    requires Trace(run, states, events) && n < |states| && !states[0].refused
    requires forall i :: 0 <= i <= n ==> Valid(run, states[i])
    ensures states[n].refused <==> exists k :: 0 <= k <= n && !HasLatest(states[k])
    decreases n
  {
    hide Trace, Steady, Stays, ResizesAfter, SentFor, TakesCharge, WarnsOnward;
    assert !states[n].refused ==> HasLatest(states[n]) by { assert Valid(run, states[n]); }
    if n > 0 {
      RefusedOverRun(run, states, events, n - 1);
      StepChanges(run, states, events, n - 1);
    }
  }
}

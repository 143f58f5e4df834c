/** What a holder owes those it serves over a run, said without the words its own rules are written in. */
module HolderDuties {
  import opened ByteQueues
  import opened Basics
  import opened HolderProtocol
  import opened HolderStreams
  import opened HolderClients
  import opened HolderTable
  import opened HolderState
  import opened HolderEvents
  import opened HolderRuns
  import opened Sieve

  // ----- who may write -----

  /** Over a run, input or a size from a client attached read-only does nothing but have it told so. */
  lemma {:induction false} ReadersOverRun<S(!new)>(run: Run<S>, states: seq<Holder<S>>, events: seq<Event>, k: nat,
          c: ClientId)
    requires Trace(run, states, events) && k < |states| - 1 && c in states[k].clients
    requires states[k].clients[c].role == Some(Attach(true)) && events[k].Says? && events[k].client == c
    requires events[k].request.Input? || events[k].request.Resize?
    ensures var before, after := states[k], states[k + 1];
            && after == before.(clients := after.clients) && after.clients.Keys == before.clients.Keys
            && (forall d :: d in before.clients && d != c ==> after.clients[d] == before.clients[d])
            && Reached(before.clients[c], after.clients[c], FrameOf(run, Rejected(ReadOnly)), Out(run, before).snapshot,
                       Out(run, before).exits)
  {
    hide Reached, Out, Departed, Appended, Overfull, Greeted;
    assert Handled(run, states[k], events[k], states[k + 1]);
  }

  /** Over a run, a size from any other client introduced becomes the latest asked for, and the PTY's
      unless it refuses; input joins the child's, unless there is no room and the client is told. */
  lemma {:induction false} WritersOverRun<S(!new)>(run: Run<S>, states: seq<Holder<S>>, events: seq<Event>, k: nat,
          c: ClientId)
    requires Trace(run, states, events) && k < |states| - 1 && c in states[k].clients && events[k].Says?
    requires events[k].client == c
    requires states[k].clients[c].role == Some(Attach(false)) || states[k].clients[c].role == Some(Supervisor)
    ensures var before, after := states[k], states[k + 1];
            match events[k].request
            case Resize(size) =>
              && |after.resizes| > 0 && after.resizes[|after.resizes| - 1] == (c, size) && after.input == before.input
              && (|| after.size == size
                  || (after.size == before.size && OnlyTold(run, before, after, c, Rejected(ChildUnavailable))))
            case Input(bytes) =>
              && after.resizes == before.resizes && after.size == before.size && after.screen == before.screen
              && (|| Pushed(before.input, after.input, Item(bytes, |bytes|))
                  || (&& before.input.counter > 0 && before.input.counter + |bytes| > before.input.cap
                      && Ran(before.input, after.input)
                      && OnlyTold(run, before, after, c, Rejected(InputBacklogged))))
            case _ => true
  {
    hide OnlyTold, Out, Departed, Appended, Greeted, Pushed, Ran, Without, SizeTold;
    assert Handled(run, states[k], events[k], states[k + 1]);
  }

  /** Over a run a timer is armed for the grace of each stop the supervisor asks for and the child
      takes, and for nothing else. */
  lemma {:induction false} GracesOverRun<S(!new)>(run: Run<S>, states: seq<Holder<S>>, events: seq<Event>, k: nat)
    requires Trace(run, states, events) && k < |states| - 1
    ensures var before, after := states[k], states[k + 1];
            match events[k]
            case Says(c, Controls(Terminate(_, grace))) =>
              if c in before.clients && before.clients[c].role == Some(Supervisor) then
                || (after.graces == before.graces + [grace] && after.clients == before.clients)
                || (after.graces == before.graces && OnlyTold(run, before, after, c, Rejected(ChildUnavailable)))
              else after.graces == before.graces
            case _ => after.graces == before.graces
  {
    hide OnlyTold, Out, Appended, Pushed, Ran, Without, SizeTold, OutputSent, ResyncedAll, ExitSends, DepartureTold,
         GreetingTold, FellBack, Redrawn, Replied, WritableAttached, Overfull;
    assert Handled(run, states[k], events[k], states[k + 1]);
  }

  // ----- how serving ends -----

  /** Serving ends with an event exactly when it is the supervisor collecting an exit that came before,
      or the deadline with no client having taken charge. */
  lemma {:induction false} EndsExactlyWhen<S(!new)>(run: Run<S>, states: seq<Holder<S>>, events: seq<Event>, n: nat)
    requires Trace(run, states, events) && n < |states| - 1
    ensures EndingOf(states[n], events[n]) ==
              match events[n]
              case Says(c, CollectExit) =>
                if c in states[n].clients && states[n].clients[c].role == Some(Supervisor)
                   && (states[0].exit.Some? || exists j :: 0 <= j < n && events[j].ChildExited?)
                then Collected(c) else Open
              case SupervisorDeadline =>
                if states[0].supervised || ChargeTaken(states, events, n) then Open else Unsupervised
              case _ => Open
  {
    hide Handled, TakesCharge, ChargeTaken;
    SupervisedOverRun(run, states, events, n);
    ExitOverRun(run, states, events, n);
  }

  /** There is an exit to collect once the child has exited, and not before. */
  lemma {:induction false} ExitOverRun<S(!new)>(run: Run<S>, states: seq<Holder<S>>, events: seq<Event>, n: nat)
    requires Trace(run, states, events) && n < |states|
    ensures states[n].exit.Some? <==> states[0].exit.Some? || exists j :: 0 <= j < n && events[j].ChildExited?
    decreases n
  {
    if n > 0 {
      hide Handled, EndingOf, HolderRuns.Stays, ResizesAfter, TakesCharge, HasLatest, WarnsOnward, SentFor;
      ExitOverRun(run, states, events, n - 1);
      StepChanges(run, states, events, n - 1);
    }
  }

  // ----- the screen -----

  /** The screen a run comes to: the first one, fed each chunk and resized to each new size in turn. */
  ghost function ScreenOver<S>(run: Run<S>, states: seq<Holder<S>>, events: seq<Event>, n: nat): S
    requires n < |states| <= |events| + 1
    decreases n
  {
    if n == 0 then states[0].screen
    else
      var was := ScreenOver(run, states, events, n - 1);
      if events[n - 1].ChildOutput? then run.terminal.feed(was, events[n - 1].bytes).screen
      else if states[n].size != states[n - 1].size then run.terminal.resize(was, states[n].size)
      else was
  }

  /** The screen after an event other than output: as it was, or resized. */
  ghost predicate Resizes<S>(run: Run<S>, before: Holder<S>, after: Holder<S>) {
    after.screen == if after.size != before.size then run.terminal.resize(before.screen, after.size) else before.screen
  }

  lemma {:induction false} MessageResizes<S(!new)>(run: Run<S>, before: Holder<S>, client: ClientId, request: Request,
          after: Holder<S>)
    requires Heeded(run, before, after, client, request)
    ensures Resizes(run, before, after)
  {
    hide OnlyTold, Appended, Departed, Pushed, Ran, Without, SizeTold, GreetingTold, WritableAttached, Overfull;
  }

  lemma {:induction false} ScreenChanges<S(!new)>(run: Run<S>, before: Holder<S>, event: Event, after: Holder<S>)
    requires Handled(run, before, event, after)
    ensures if event.ChildOutput? then after.screen == run.terminal.feed(before.screen, event.bytes).screen
            else Resizes(run, before, after)
  {
    hide Heeded, Ran, Without, OutputSent, ResyncedAll, ExitSends, DepartureTold, Replied, WritableAttached, SentFor;
    if event.Says? {
      MessageResizes(run, before, event.client, event.request, after);
    }
  }

  /** Over a run the screen is all the child wrote, at the sizes it was written at. */
  lemma {:induction false} ScreenOverRun<S(!new)>(run: Run<S>, states: seq<Holder<S>>, events: seq<Event>, n: nat)
    requires Trace(run, states, events) && n < |states|
    ensures states[n].screen == ScreenOver(run, states, events, n)
    decreases n
  {
    hide Handled, EndingOf;
    if n > 0 {
      ScreenOverRun(run, states, events, n - 1);
      ScreenChanges(run, states[n - 1], events[n - 1], states[n]);
    }
  }

  // ----- the attach count -----

  ghost function WritersAt<S>(h: Holder<S>): set<ClientId> {
    set c | c in h.clients && h.clients[c].role == Some(Attach(false))
  }

  /** Who is attached for writing: those let in as such, less those that went. */
  ghost function WritersOver<S>(states: seq<Holder<S>>, events: seq<Event>, n: nat): set<ClientId>
    requires n < |states| <= |events| + 1
    decreases n
  {
    if n == 0 then WritersAt(states[0])
    else
      var were := WritersOver(states, events, n - 1);
      match events[n - 1]
      case Says(c, Hello(Attach(false))) =>
        if c in states[n - 1].clients && states[n - 1].clients[c].role.None? then were + {c} else were
      case Disconnected(c) => were - {c}
      case _ => were
  }

  lemma {:induction false} WritersNext<S(!new)>(states: seq<Holder<S>>, events: seq<Event>, k: nat)
    requires k + 1 < |states| <= |events| + 1 && HolderRuns.Stays(states[k], events[k], states[k + 1])
    requires forall c :: c in states[k].clients ==> c < states[k].connections
    requires WritersOver(states, events, k) == WritersAt(states[k])
    ensures WritersOver(states, events, k + 1) == WritersAt(states[k + 1])
  {
  }

  /** Over a run the count on record is that of the clients attached for writing, as a `u32` holds it. */
  lemma {:induction false} AttachedOverRun<S(!new)>(run: Run<S>, states: seq<Holder<S>>, events: seq<Event>, n: nat)
    requires Trace(run, states, events) && n < |states| && forall i :: 0 <= i <= n ==> Valid(run, states[i])
    ensures WritersOver(states, events, n) == WritersAt(states[n])
    ensures var count := |WritersOver(states, events, n)|;
            states[n].reportedAttached == if count <= 0xFFFF_FFFF then count else 0xFFFF_FFFF
    decreases n
  {
    hide Valid, Handled, EndingOf, WritersOver, HolderRuns.Stays, Changes;
    if n == 0 {
      FirstWriters(states, events);
    } else {
      AttachedOverRun(run, states, events, n - 1);
      StepChanges(run, states, events, n - 1);
      assert Valid(run, states[n - 1]);
      ValidFacts(run, states[n - 1]);
      WritersNext(states, events, n - 1);
    }
    ValidFacts(run, states[n]);
    assert AttachedWriters(states[n].clients) == WritersAt(states[n]);
  }

  lemma FirstWriters<S(!new)>(states: seq<Holder<S>>, events: seq<Event>)
    requires 0 < |states| <= |events| + 1
    ensures WritersOver(states, events, 0) == WritersAt(states[0])
  {
  }

  // ----- what the child is to read -----

  /** Over a run the child's input is added to only by what those who may write type, as above, and by
      the answers to its own queries, whole and in order, unless there is no room for them. */
  lemma {:induction false} InputOverRun<S(!new)>(run: Run<S>, states: seq<Holder<S>>, events: seq<Event>, k: nat)
    requires Trace(run, states, events) && k < |states| - 1
    ensures var before, after := states[k].input, states[k + 1].input;
            match events[k]
            case ChildOutput(bytes, _) =>
              var answers := run.terminal.replies(states[k].screen, bytes);
              if answers == [] then after == before
              else
                || Pushed(before, after, Item(answers, |answers|))
                || (Ran(before, after) && before.counter > 0 && before.counter + |answers| > before.cap)
            case Says(c, Input(_)) =>
              c !in states[k].clients || states[k].clients[c].role in {None, Some(Attach(true))} ==> after == before
            case _ => after == before
  {
    hide OnlyTold, Appended, Pushed, Ran, Without, SizeTold, OutputSent, ResyncedAll, ExitSends, GreetingTold,
         DepartureTold, FellBack, Redrawn, WritableAttached, SentFor;
    assert Handled(run, states[k], events[k], states[k + 1]);
  }

  // ----- what arrives when there is room -----

  /** A frame that fits is queued, and nothing queued before it is lost. */
  lemma {:induction false} Arrives(before: Clients, after: Clients, taken: set<ClientId>, f: Frame, out: Outgoing,
          c: ClientId)
    requires Broadcast(before, after, taken, f, out) && c in before && c in taken
    requires before[c].outbox.counter == 0 || before[c].outbox.counter + f.bytes <= before[c].outbox.cap
    ensures Frames(after[c]) == Frames(before[c]) + [f]
  {
    hide Resynced, Settled;
  }

  /** Over a run an attached terminal with room for it gets each chunk the emulator takes as the child
      wrote it, after all it was sent before. */
  lemma {:induction false} OutputArrives<S(!new)>(run: Run<S>, states: seq<Holder<S>>, events: seq<Event>, k: nat,
          c: ClientId)
    requires Trace(run, states, events) && k < |states| - 1 && events[k].ChildOutput? && c in states[k].clients
    requires states[k].clients[c].role.Some? && states[k].clients[c].role.value.Attach?
    requires run.terminal.feed(states[k].screen, events[k].bytes).Processed?
    requires var outbox, f := states[k].clients[c].outbox, FrameOf(run, Output(|states[k].log|, events[k].bytes));
             outbox.counter == 0 || outbox.counter + f.bytes <= outbox.cap
    ensures c in states[k + 1].clients
    ensures Frames(states[k + 1].clients[c])
         == Frames(states[k].clients[c]) + [FrameOf(run, Output(|states[k].log|, events[k].bytes))]
  {
    hide Out, Sends, ResetSent, SameRoles, Replied, EndingOf, Stream;
    var before, after, bytes, logging := states[k], states[k + 1], events[k].bytes, events[k].logging;
    assert Handled(run, before, events[k], after);
    var next := before.(input := after.input, late := before.late || before.exit.Some?,
                        screen := run.terminal.feed(before.screen, bytes).screen, log := before.log + logging.held);
    var held: Clients, whole: Clients :| Sends(run, next, held, whole, after.clients, bytes, logging);
    OutputArrivesAt(run, next, held, whole, after.clients, bytes, logging, c);
  }

  lemma {:induction false} OutputArrivesAt<S(!new)>(run: Run<S>, next: Holder<S>, held: Clients, whole: Clients,
          after: Clients, bytes: Bytes, logging: Logging, c: ClientId)
    requires Sends(run, next, held, whole, after, bytes, logging) && c in next.clients
    requires next.clients[c].role.Some? && next.clients[c].role.value.Attach? && |next.log| >= |logging.held|
    requires var outbox, f := next.clients[c].outbox, FrameOf(run, Output(|next.log| - |logging.held|, bytes));
             outbox.counter == 0 || outbox.counter + f.bytes <= outbox.cap
    ensures c in after
    ensures Frames(after[c]) == Frames(next.clients[c]) + [FrameOf(run, Output(|next.log| - |logging.held|, bytes))]
  {
    hide Out, Reached, UnloggedPart, Stream;
    var f, out := FrameOf(run, Output(|next.log| - |logging.held|, bytes)), Out(run, next);
    if logging.whole {
      Arrives(next.clients, held, InRole(next.clients, Anyone), f, out, c);
      AttachStays(next.clients, held, InRole(next.clients, Anyone), f, out, c);
    } else {
      assert held[c] == next.clients[c];
      Arrives(held, whole, InRole(held, Attaches), f, out, c);
      AttachStays(held, whole, InRole(held, Attaches), f, out, c);
    }
    assert after[c] == whole[c];
  }

  lemma {:induction false} AttachStays(before: Clients, after: Clients, taken: set<ClientId>, f: Frame, out: Outgoing,
          c: ClientId)
    requires Broadcast(before, after, taken, f, out) && c in before
    ensures c in after && after[c].role == before[c].role
  {
    hide Settled, Pushed, Kept, Dropped, WarningsIn, Overfull;
  }

  /** So with the exit. */
  lemma {:induction false} ExitArrives<S(!new)>(run: Run<S>, states: seq<Holder<S>>, events: seq<Event>, k: nat,
          c: ClientId)
    requires Trace(run, states, events) && k < |states| - 1 && events[k].ChildExited? && c in states[k].clients
    requires states[k].clients[c].role.Some? && states[k].clients[c].role.value.Attach?
    requires var outbox, f := states[k].clients[c].outbox, FrameOf(run, Exited(events[k].outcome));
             outbox.counter == 0 || outbox.counter + f.bytes <= outbox.cap
    ensures c in states[k + 1].clients
    ensures Frames(states[k + 1].clients[c])
         == Frames(states[k].clients[c]) + [FrameOf(run, Exited(events[k].outcome))]
  {
    hide Out, Reached, EndingOf, Stream;
    var before, after, outcome := states[k], states[k + 1], events[k].outcome;
    assert Handled(run, before, events[k], after);
    var next := before.(exit := Some(outcome), childExited := true, late := before.late || before.exit.Some?);
    var shown: Clients :| ExitSends(run, next, shown, after.clients, outcome);
    assert shown[c] == before.clients[c];
    Arrives(shown, after.clients, InRole(shown, Anyone), FrameOf(run, Exited(outcome)), Out(run, next), c);
  }

  // ----- whose screen a snapshot is -----

  /** Every snapshot in a stream names the run's child and where its output starts. */
  ghost predicate Stamped<S>(run: Run<S>, s: seq<Frame>) {
    forall i :: 0 <= i < |s| && s[i].value.Snapshot? ==>
      s[i].value.pid == run.pid && s[i].value.runStart == run.runStart
  }

  ghost predicate AllStamped<S>(run: Run<S>, clients: Clients) {
    forall c :: c in clients ==> Stamped(run, Frames(clients[c]))
  }

  lemma {:induction false} ResyncStamps<S(!new)>(run: Run<S>, h: Holder<S>, before: Client, after: Client,
          owed: seq<Frame>)
    requires Stamped(run, Frames(before)) && AllWarnings(owed)
    requires Resynced(before, after, Out(run, h).snapshot, owed, Out(run, h).exits)
    ensures Stamped(run, Frames(after))
  {
    hide Inv, WritableAttached;
    var consumed, channel, mask := before.outbox.consumed, before.outbox.channel, Race(before, after);
    var base := consumed + Kept(channel, mask);
    forall i | 0 <= i < |base| && base[i].value.Snapshot?
      ensures base[i].value.pid == run.pid && base[i].value.runStart == run.runStart
    {
      var j := Origin(consumed, channel, mask, i);
      assert Frames(before)[j] == base[i];
    }
  }

  lemma {:induction false} BroadcastStamps<S(!new)>(run: Run<S>, h: Holder<S>, before: Clients, after: Clients,
          taken: set<ClientId>, f: Frame)
    requires AllStamped(run, before) && Stamped(run, [f])
    requires Broadcast(before, after, taken, f, Out(run, h))
    ensures AllStamped(run, after)
  {
    hide Settled, Overfull, Out, Kept, Dropped, WarningsIn;
    forall c | c in after ensures Stamped(run, Frames(after[c])) {
      if c in taken {
        if Appended(before[c], after[c], f) {
          assert [f][0] == f;
        } else {
          ResyncStamps(run, h, before[c], after[c], []);
        }
      }
    }
  }

  lemma {:induction false} ResyncedAllStamps<S(!new)>(run: Run<S>, h: Holder<S>, before: Table, after: Table,
          chosen: set<ClientId>)
    requires AllStamped(run, before.clients) && ResyncedAll(before, after, chosen, Out(run, h))
    ensures AllStamped(run, after.clients)
  {
    hide Resynced, Stamped, WritableAttached;
    forall c | c in after.clients ensures Stamped(run, Frames(after.clients[c])) {
      if c in chosen {
        ResyncStamps(run, h, before.clients[c], after.clients[c],
                     Owed(before.clients[c], before.warning, Out(run, h).warning));
      }
    }
  }

  lemma {:induction false} SnapshotStamped<S(!new)>(run: Run<S>, h: Holder<S>)
    ensures Stamped(run, [Out(run, h).snapshot])
  {
    hide WritableAttached;
  }

  lemma {:induction false} CountStamps<S(!new)>(run: Run<S>, h: Holder<S>, after: Clients)
    requires AllStamped(run, h.clients) && CountTold(run, h, after)
    ensures AllStamped(run, after)
  {
    hide AllStamped, Broadcast, Out, WritableAttached;
    var count := WritableAttached(h.clients);
    if count != h.reportedAttached {
      BroadcastStamps(run, h, h.clients, after, InRole(h.clients, Supervises), FrameOf(run, Attached(count)));
    }
  }

  lemma {:induction false} SizeStamps<S(!new)>(run: Run<S>, h: Holder<S>, changed: bool, after: Clients)
    requires AllStamped(run, h.clients) && SizeTold(run, h, changed, after)
    ensures AllStamped(run, after)
  {
    hide AllStamped, ResyncedAll, Out;
    if changed {
      ResyncedAllStamps(run, h, Everyone(h), Everyone(h).(clients := after), InRole(h.clients, Attaches));
    }
  }

  lemma {:induction false} OutputStamps<S(!new)>(run: Run<S>, next: Holder<S>, after: Clients, bytes: Bytes,
          logging: Logging)
    requires AllStamped(run, next.clients) && OutputSent(run, next, after, bytes, logging)
    ensures AllStamped(run, after)
  {
    hide AllStamped, Broadcast, Out, UnloggedPart;
    var held: Clients, whole: Clients :| Sends(run, next, held, whole, after, bytes, logging);
    var at := |next.log| - |logging.held|;
    if logging.whole {
      BroadcastStamps(run, next, next.clients, held, InRole(next.clients, Anyone), FrameOf(run, Output(at, bytes)));
    } else {
      if logging.held != [] {
        BroadcastStamps(run, next, next.clients, held, InRole(next.clients, Supervises),
                        FrameOf(run, Output(at, logging.held)));
      }
      BroadcastStamps(run, next, held, whole, InRole(held, Attaches), FrameOf(run, Output(at, bytes)));
    }
    if UnloggedPart(logging) != [] {
      BroadcastStamps(run, next, whole, after, InRole(whole, Supervises),
                      FrameOf(run, Unlogged(UnloggedPart(logging))));
    }
  }

  lemma {:induction false} SpeechStamps<S(!new)>(run: Run<S>, before: Holder<S>, after: Holder<S>, bytes: Bytes,
          logging: Logging)
    requires AllStamped(run, before.clients) && Spoke(run, before, after, bytes, logging)
    ensures AllStamped(run, after.clients)
  {
    hide AllStamped, OutputSent, ResyncedAll, Out, Replied, SameRoles, InRole;
    var fed := run.terminal.feed(before.screen, bytes);
    var next := before.(input := after.input, late := before.late || before.exit.Some?, screen := fed.screen,
                        log := before.log + logging.held);
    if fed.Processed? {
      OutputStamps(run, next, after.clients, bytes, logging);
    } else {
      var due := next.(resetWarning := if next.resetWarning.Unneeded? then Pending else next.resetWarning);
      ResyncedAllStamps(run, due, Everyone(due), Everyone(after), InRole(due.clients, Anyone));
    }
  }

  lemma {:induction false} ExitStamps<S(!new)>(run: Run<S>, before: Holder<S>, after: Holder<S>, outcome: ExitOutcome)
    requires AllStamped(run, before.clients) && Ended(run, before, after, outcome)
    ensures AllStamped(run, after.clients)
  {
    hide AllStamped, Broadcast, Out;
    var next := before.(exit := Some(outcome), childExited := true, late := before.late || before.exit.Some?);
    var shown: Clients :| ExitSends(run, next, shown, after.clients, outcome);
    SnapshotStamped(run, next);
    BroadcastStamps(run, next, next.clients, shown, InRole(next.clients, Supervises), Out(run, next).snapshot);
    BroadcastStamps(run, next, shown, after.clients, InRole(shown, Anyone), FrameOf(run, Exited(outcome)));
  }

  lemma {:induction false} DepartureStamps<S(!new)>(run: Run<S>, before: Holder<S>, after: Holder<S>,
          gone: set<ClientId>)
    requires AllStamped(run, before.clients) && Departed(run, before, after, gone)
    ensures AllStamped(run, after.clients)
  {
    hide Stamped, CountTold, SizeTold, Out, WritableAttached, Without, FellBack;
    var counted: Clients :| DepartureTold(run, before, counted, after, gone);
    var left := before.(clients := before.clients - gone);
    CountStamps(run, left, counted);
    SizeStamps(run, after.(clients := counted), after.size != before.size, after.clients);
  }

  lemma {:induction false} GreetingStamps<S(!new)>(run: Run<S>, before: Holder<S>, after: Holder<S>, client: ClientId,
          role: Role)
    requires AllStamped(run, before.clients) && Greeted(run, before, after, client, role)
    ensures AllStamped(run, after.clients)
  {
    hide Stamped, CountTold, ResyncedAll, Out, WritableAttached, Without, FellBack, Departed;
    var cleared: Holder<S>, admitted: Holder<S> :| GreetingTold(run, before, cleared, admitted, after, client, role);
    DepartureStamps(run, before.(supervised := before.supervised || role.Supervisor?), cleared,
                    Evicted(before.clients, role));
    var named := cleared.(clients := cleared.clients[client := cleared.clients[client].(role := Some(role))]);
    ResyncedAllStamps(run, named, Everyone(named), Everyone(admitted), {client});
    CountStamps(run, admitted, after.clients);
  }

  lemma {:induction false} RefusalStamps<S(!new)>(run: Run<S>, before: Holder<S>, after: Holder<S>, client: ClientId,
          reason: RejectReason)
    requires AllStamped(run, before.clients) && OnlyTold(run, before, after, client, Rejected(reason))
    ensures AllStamped(run, after.clients)
  {
    hide AllStamped, Broadcast, Out;
    BroadcastStamps(run, before, before.clients, after.clients, {client}, FrameOf(run, Rejected(reason)));
  }

  lemma {:induction false} MessageStamps<S(!new)>(run: Run<S>, before: Holder<S>, client: ClientId, request: Request,
          after: Holder<S>)
    requires AllStamped(run, before.clients) && Heeded(run, before, after, client, request)
    ensures AllStamped(run, after.clients)
  {
    hide AllStamped, Greeted, Refused, OnlyTold, Resized, Pushed, Ran, Overfull;
    if client in before.clients {
      var refusal := Refusal(before, client, request);
      if refusal.Some? {
        RefusedStamps(run, before, after, client, refusal.value);
      } else if request.Hello? {
        GreetingStamps(run, before, after, client, request.role);
      } else if request.Resize? {
        ResizeStamps(run, before, after, client, request.size);
      } else if request.Input? && after.clients != before.clients {
        RefusalStamps(run, before, after, client, InputBacklogged);
      } else if request.Controls? && after.clients != before.clients {
        RefusalStamps(run, before, after, client, ChildUnavailable);
      }
    }
  }

  lemma {:induction false} RefusedStamps<S(!new)>(run: Run<S>, before: Holder<S>, after: Holder<S>, client: ClientId,
          reason: RejectReason)
    requires AllStamped(run, before.clients) && Refused(run, before, after, client, reason)
    ensures AllStamped(run, after.clients)
  {
    hide OnlyTold, Departed, Overfull, Settled;
    if client in before.clients && before.clients[client].role.Some? {
      RefusalStamps(run, before, after, client, reason);
    }
  }

  lemma {:induction false} ResizeStamps<S(!new)>(run: Run<S>, before: Holder<S>, after: Holder<S>, client: ClientId,
          size: Size)
    requires AllStamped(run, before.clients) && Resized(run, before, after, client, size)
    ensures AllStamped(run, after.clients)
  {
    hide AllStamped, OnlyTold, SizeTold, Without, Redrawn;
    if after.size == size {
      SizeStamps(run, after.(clients := before.clients), after.size != before.size, after.clients);
    } else {
      RefusalStamps(run, before, after, client, ChildUnavailable);
    }
  }

  lemma {:induction false} EventStamps<S(!new)>(run: Run<S>, before: Holder<S>, event: Event, after: Holder<S>)
    requires AllStamped(run, before.clients) && Handled(run, before, event, after)
    ensures AllStamped(run, after.clients)
  {
    hide AllStamped, Spoke, Ended, Heeded, Departed, Wrote, Joined, SentFor;
    match event
    case ChildOutput(bytes, logging) => SpeechStamps(run, before, after, bytes, logging);
    case ChildExited(outcome) => ExitStamps(run, before, after, outcome);
    case Says(client, request) => MessageStamps(run, before, client, request, after);
    case Disconnected(client) => DepartureStamps(run, before, after, {client});
    case Connected(client, cloned) => JoiningStamps(run, before, client, cloned);
    case WriterRuns(client) => WriterStamps(run, before, after, client);
    case _ =>
  }

  lemma JoiningStamps<S(!new)>(run: Run<S>, before: Holder<S>, client: ClientId, cloned: bool)
    requires AllStamped(run, before.clients)
    ensures AllStamped(run, Joined(before, client, cloned).clients)
  {
  }

  lemma WriterStamps<S(!new)>(run: Run<S>, before: Holder<S>, after: Holder<S>, client: ClientId)
    requires AllStamped(run, before.clients) && Wrote(before, after, client)
    ensures AllStamped(run, after.clients)
  {
  }

  /** Over a run every snapshot any client is sent names the run's child and where its output starts. */
  lemma {:induction false} SnapshotsOverRun<S(!new)>(run: Run<S>, states: seq<Holder<S>>, events: seq<Event>, n: nat)
    requires Trace(run, states, events) && n < |states| && AllStamped(run, states[0].clients)
    ensures AllStamped(run, states[n].clients)
    decreases n
  {
    hide AllStamped, Handled, EndingOf;
    if n > 0 {
      SnapshotsOverRun(run, states, events, n - 1);
      EventStamps(run, states[n - 1], events[n - 1], states[n]);
    }
  }
}

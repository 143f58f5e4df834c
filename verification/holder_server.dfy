/**
 The holder loop: one child's screen, log and exit, served to any number of clients whose
 writers drain their outboxes meanwhile.
 */
module HolderServers {
  import opened ByteQueues
  import opened Basics
  import opened HolderProtocol
  import opened HolderStreams
  import opened HolderClients
  import opened HolderTable
  import opened HolderState
  import opened HolderEvents
  import opened HolderRuns

  class HolderServer<S(!new)> {
    const run: Run<S>
    var h: Holder<S>

    constructor (run: Run<S>, size: Size, log: Bytes)
      requires Lawful(run.terminal)
      ensures this.run == run && Valid(run, h)
      ensures h.clients == map[] && h.log == log && h.size == size && h.exit == None && !h.supervised && !h.refused
      ensures h.resizes == [] && h.signals == [] && h.graces == [] && h.resetWarning == Unneeded && h.connections == 0
      ensures h.screen == run.terminal.blank(size) && h.input == Empty(1024 * 1024) && !h.childExited && !h.late
    {
      this.run := run;
      h := Holder(run.terminal.blank(size), log, Empty(CHILD_INPUT_BYTES), map[], [], size, None, false, false,
                  0, Unneeded, [], [], None, false, false, 0);
      new;
      assert AttachedWriters(h.clients) == {};
    }

    // ----- sizes -----

    /** PTY and emulator have the new size, or both keep theirs and the refusal is on record (`None`). */
    method ApplySize(size: Size) returns (changed: Option<bool>)
      requires Lawful(run.terminal) && run.terminal.sizeOf(h.screen) == h.size
      modifies this
      ensures run.terminal.sizeOf(h.screen) == h.size
      ensures h == match changed
                   case None => old(h).(refused := true)
                   case Some(false) => old(h)
                   case Some(true) => old(h).(size := size, screen := run.terminal.resize(old(h.screen), size))
      ensures changed == Some(false) <==> old(h.size) == size
    {
      if size == h.size {
        return Some(false);
      }
      var accepted: bool := *;
      if !accepted {
        h := h.(refused := true);
        return None;
      }
      h := h.(size := size, screen := run.terminal.resize(h.screen, size));
      changed := Some(true);
    }

    /** After the screen changed size, puts attach clients back in sync; supervisors need nothing. */
    method ResyncAttached(ghost was: S)
      requires Steady(run, h.(screen := was, size := run.terminal.sizeOf(was)))
      requires run.terminal.sizeOf(h.screen) == h.size && Counted(h)
      modifies this
      ensures OnlyOutboxes(old(h), h) && Steady(run, h) && Counted(h)
      ensures ResyncedAll(Everyone(old(h)), Everyone(h), InRole(old(h.clients), Attaches), Out(run, old(h)))
    {
      hide ClientOk, Resynced, Resyncable, Settled, Warnings, Lawful;
      ghost var before := h;
      var chosen := InRole(h.clients, Attaches);
      AttachResyncable(run.terminal, Here(h).(screen := was), Here(h), h.clients, chosen);
      OutgoingHere(run, h);
      var after := ResyncEach(Everyone(h), Out(run, h), chosen);
      ResyncServes(run.terminal, Here(h), Everyone(h), after, chosen, Out(run, h), h.supervised);
      h := h.(clients := after.clients);
      SameRolesSameCount(before.clients, h.clients);
    }

    // ----- one client -----

    /** The client gets the message, or a resync in its place, or, without a role, is dropped. */
    method Send(client: ClientId, message: Message)
      requires client in h.clients ==> Settled(h.clients[client].outbox)
      requires client in h.clients && h.clients[client].role.None? ==> Valid(run, h) && message.Rejected?
      requires OneSupervisor(h.clients) && (h.resetWarning.Pending? ==> NoSupervisor(h.clients))
      modifies this
      ensures Delivered(run, old(h), h, client, message)
      ensures client in old(h.clients) && old(h.clients[client]).role.None? ==> Valid(run, h)
      decreases |h.clients|, 1
    {
      hide Departed, Valid, Broadcast, ResyncedAll, Settled, OneSupervisor, NoSupervisor, PushedTo, Out, Pushed, Ran,
           OnlyOutboxes;
      if client !in h.clients {
        return;
      }
      ghost var was := h;
      var entry, frame := h.clients[client], FrameOf(run, message);
      var ok, outbox := TryPush(entry.outbox, frame);
      h := h.(clients := h.clients[client := entry.(outbox := outbox)]);
      TriedToPush(run, was, h, client, frame, ok);
      ghost var pushed := h;
      if !ok {
        OnStalled(client);
      }
      SentTo(run, was, pushed, h, client, message, ok);
    }

    /** With a role the client is resynced, without one it goes. */
    method OnStalled(client: ClientId)
      requires client in h.clients && Settled(h.clients[client].outbox)
      requires h.clients[client].role.None? ==> Valid(run, h)
      requires OneSupervisor(h.clients) && (h.resetWarning.Pending? ==> NoSupervisor(h.clients))
      modifies this
      ensures old(h.clients[client]).role.Some? ==>
        OnlyOutboxes(old(h), h) && ResyncedAll(Everyone(old(h)), Everyone(h), {client}, Out(run, old(h)))
      ensures old(h.clients[client]).role.None? ==>
        Valid(run, h) && Departed(run, old(h), h, {client})
      decreases |h.clients|, 0
    {
      hide ClientOk, Resynced, Serves, Sized;
      if h.clients[client].role.Some? {
        assert {client} * h.clients.Keys == {client};
        var after := HolderTable.Resync(Everyone(h), Out(run, h), client);
        h := h.(clients := after.clients, resetWarning := after.warning, warned := after.warned);
      } else {
        assert |h.clients.Keys - {client}| < |h.clients.Keys|;
        DropClient(client);
      }
    }

    /** Afterwards the count on record is right and the supervisor's last word on it: it alone is
        told, and only of another count. */
    method ReportAttached()
      requires Steady(run, h)
      modifies this
      ensures Steady(run, h) && Counted(h)
      ensures h == old(h).(clients := h.clients, reportedAttached := WritableAttached(old(h.clients)))
      ensures SameRoles(old(h.clients), h.clients) && CountTold(run, old(h), h.clients)
      decreases |h.clients|, 2
    {
      hide Steady, Broadcast, Out, WritableAttached, OneSupervisor, NoSupervisor, Settled, CountTold;
      SteadyRoles(run, h);
      NoneTold(run, h);
      var attached := WritableAttached(h.clients);
      if attached == h.reportedAttached {
        return;
      }
      ghost var was := h;
      h := h.(reportedAttached := attached);
      ghost var told := h;
      var supervisors := InRole(h.clients, Supervises);
      NoOneElseToTell(run, was, h, supervisors);
      var todo := supervisors;
      while todo != {}
        invariant todo == supervisors || todo == {}
        invariant todo == supervisors ==> h == told
        invariant todo == {} ==> Steady(run, h) && OnlyOutboxes(told, h) && CountTold(run, was, h.clients)
        decreases |todo|
      {
        var client :| client in todo;
        assert todo == {client};
        Send(client, Attached(attached));
        ToldTheCount(run, was, h, client);
        todo := todo - {client};
      }
      SameRolesSameCount(was.clients, h.clients);
    }

    /** Exactly this client goes, with the size it asked for, and everyone left stays in sync. */
    method DropClient(client: ClientId)
      requires Valid(run, h)
      modifies this
      ensures Valid(run, h) && Departed(run, old(h), h, {client})
      decreases |h.clients.Keys - {client}|, 3
    {
      hide Steady, Sized, FellBack, Without, CountTold, SizeTold;
      ghost var was := h;
      h := h.(clients := h.clients - {client});
      StillSteady(run, was, client);
      ReportAttached();
      ghost var told := h;
      SizesLeft(was, told, client);
      FallBack(client);
      DroppedSo(run, was, told, h, client);
    }

    /** Takes a size, if the PTY will, and resyncs attached clients to it when it is another.
        Returns whether the PTY has it. */
    method TakeSize(size: Size) returns (taken: bool)
      requires Steady(run, h) && Counted(h)
      modifies this
      ensures Steady(run, h) && Counted(h) && SameRoles(old(h.clients), h.clients)
      ensures h == old(h).(size := h.size, refused := h.refused, screen := h.screen, clients := h.clients)
      ensures TookOrRefused(old(h), h, size) && Redrawn(run, old(h), h) && taken == (h.size == size)
      ensures SizeTold(run, h.(clients := old(h.clients)), h.size != old(h.size), h.clients)
    {
      hide ClientOk, Warnings, Settled, Serves;
      ghost var was := h;
      var changed := ApplySize(size);
      if changed == Some(true) {
        ResyncAttached(was.screen);
      }
      taken := changed.Some?;
    }

    /** Forgets what a client gone asked for, taking the size asked for before it. */
    method FallBack(client: ClientId)
      requires Steady(run, h) && Counted(h)
      requires SizesOk(h.clients, Without(h.resizes, {client}), h.size, h.refused || Latest(h.resizes, client))
      modifies this
      ensures Valid(run, h) && SameRoles(old(h.clients), h.clients)
      ensures h == old(h).(resizes := Without(old(h.resizes), {client}), size := h.size, screen := h.screen,
                           refused := h.refused, clients := h.clients)
      ensures FellBack(run, old(h), h)
      ensures SizeTold(run, h.(clients := old(h.clients)), h.size != old(h.size), h.clients)
    {
      hide Steady, SizesOk, Without, SizeTold, WritableAttached;
      var wasLatest := Latest(h.resizes, client);
      LatestWithout(h.resizes, client);
      WithSizes(run, h, Without(h.resizes, {client}));
      h := h.(resizes := Without(h.resizes, {client}));
      ghost var was := h;
      SizeKept(run, h);
      if wasLatest && h.resizes != [] {
        var _ := TakeSize(h.resizes[|h.resizes| - 1].1);
      }
      SizeTaken(was.clients, h.clients, h.resizes, was.size, h.size, was.refused || wasLatest, h.refused);
    }

    // ----- everyone -----

    /** Clients whose role `takes` accepts get the message, or a resync in its place; no one else is
        touched. */
    method BroadcastTo(takes: Role -> bool, message: Message)
      requires SettledAll(h.clients, h.clients.Keys)
      requires OneSupervisor(h.clients) && (h.resetWarning.Pending? ==> NoSupervisor(h.clients))
      modifies this
      ensures OnlyOutboxes(old(h), h)
      ensures Broadcast(old(h.clients), h.clients, InRole(old(h.clients), takes),
                        FrameOf(run, message), Out(run, old(h)))
      ensures SettledAll(h.clients, h.clients.Keys) && Out(run, h) == Out(run, old(h))
      ensures OneSupervisor(h.clients) && (h.resetWarning.Pending? ==> NoSupervisor(h.clients))
    {
      hide Settled, Reached, Ran;
      var taken := InRole(h.clients, takes);
      ghost var was := h;
      var after := HolderTable.BroadcastTo(Everyone(h), Out(run, h), taken, FrameOf(run, message));
      h := h.(clients := after.clients);
      BroadcastKeepsRoles(was.clients, h.clients, taken, FrameOf(run, message), Out(run, was));
      SameRolesSameCount(was.clients, h.clients);
    }

    /** Sends a chunk the emulator took, in one frame or two, so that everyone is in sync with the new
        screen and log; `held` is the table between the two sends. */
    method TellOutput(ghost was: Holder<S>, bytes: Bytes, logging: Logging) returns (ghost held: Clients)
      requires Valid(run, was) && LoggingOf(logging, bytes)
      requires h == was.(screen := run.terminal.feed(was.screen, bytes).screen, log := was.log + logging.held)
      modifies this
      ensures OnlyOutboxes(old(h), h) && Steady(run, h) && OutputTold(run, old(h), held, h.clients, bytes, logging)
    {
      hide Steady, Counted, Sized, Broadcast, Out, OneSupervisor, NoSupervisor, Settled, InRole;
      ghost var next := h;
      SteadySettled(run, was);
      SteadyRoles(run, was);
      var at := |h.log| - |logging.held|;
      if logging.whole {
        BroadcastTo(Anyone, Output(at, bytes));
        held := h.clients;
        WholeOutput(run, was, next, h, bytes);
      } else {
        if logging.held != [] {
          BroadcastTo(Supervises, Output(at, logging.held));
        }
        ghost var middle := h;
        held := h.clients;
        BroadcastTo(Attaches, Output(at, bytes));
        SplitOutput(run, was, next, middle, h, logging.held, bytes);
      }
    }

    /** Sends the supervisor what the log failed to take, which moves nobody's place in the log. */
    method TellUnlogged(logging: Logging)
      requires Valid(run, h)
      modifies this
      ensures OnlyOutboxes(old(h), h) && Valid(run, h)
      ensures RestTold(run, old(h), old(h.clients), h.clients, logging)
    {
      hide ClientOk, Warnings, Settled, Reached, Broadcast, Lawful, SizesOk;
      ghost var was := h;
      var unlogged := UnloggedPart(logging);
      if unlogged != [] {
        SteadySettled(run, h);
        BroadcastTo(Supervises, Unlogged(unlogged));
        UnloggedOutput(run, was, h, unlogged);
        StillValid(run, was, h);
      }
    }

    /** Tells the clients of output: what the log took of it, then to the supervisor the rest. */
    method TellAll(ghost was: Holder<S>, bytes: Bytes, logging: Logging)
      requires Valid(run, was) && LoggingOf(logging, bytes)
      requires h == was.(screen := run.terminal.feed(was.screen, bytes).screen, log := was.log + logging.held)
      modifies this
      ensures OnlyOutboxes(old(h), h) && Valid(run, h) && OutputSent(run, old(h), h.clients, bytes, logging)
    {
      hide Valid, Steady, Broadcast, LoggingOf, UnloggedPart, OutputTold, Out;
      ghost var next := h;
      ghost var held := TellOutput(was, bytes, logging);
      ghost var whole := h;
      StillCounted(run, was, h);
      SameOut(run, next, whole);
      TellUnlogged(logging);
      assert Sends(run, next, held, whole.clients, h.clients, bytes, logging);
    }

    /** The emulator reset its screen: every client is resynced to it, and the supervisor warned
        once in the run. */
    method TellReset(ghost was: Holder<S>)
      requires Valid(run, was) && (was.exit.Some? ==> was.late)
      requires h == was.(screen := h.screen, log := h.log) && was.log <= h.log
      requires run.terminal.sizeOf(h.screen) == h.size
      modifies this
      ensures Steady(run, h) && SameRoles(was.clients, h.clients) && ResetSent(run, old(h), h)
    {
      hide ClientOk, Warnings, Settled, Resynced, Lawful, SizesOk;
      if h.resetWarning == Unneeded {
        h := h.(resetWarning := Pending);
      }
      var all := InRole(h.clients, Anyone);
      AllResyncable(run, was, h, all);
      OutgoingHere(run, h);
      var after := ResyncEach(Everyone(h), Out(run, h), all);
      ResetServes(run, was, h, after, all);
      h := h.(clients := after.clients, resetWarning := after.warning, warned := after.warned);
    }

    /** Queues the replies for the child whole, or not at all when its input is full. */
    method Answer(replies: Bytes)
      requires Valid(run, h)
      modifies this
      ensures Valid(run, h) && h == old(h).(input := h.input)
      ensures Replied(old(h.input), h.input, replies)
    {
      hide Serves, SizesOk, Lawful, Ran, Pushed, Inv;
      if replies != [] {
        var _, input := TryPush(h.input, Item(replies, |replies|));
        h := h.(input := input);
      }
    }

    /** Takes output into the screen and the log and tells every client; output the emulator fails
        on leaves a blank screen all are resynced to instead. */
    method Absorb(bytes: Bytes, logging: Logging)
      requires Valid(run, h) && LoggingOf(logging, bytes) && (h.exit.Some? ==> h.late)
      modifies this
      ensures Valid(run, h) && Absorbed(run, old(h), h, bytes, logging)
    {
      hide Valid, Steady, LoggingOf, OutputSent, ResyncedAll, Out;
      var fed := run.terminal.feed(h.screen, bytes);
      FedSize(run, h, bytes);
      ghost var was := h;
      h := h.(screen := fed.screen, log := h.log + logging.held);
      if fed.Panicked? {
        TellReset(was);
        StillCounted(run, was, h);
      } else {
        TellAll(was, bytes, logging);
      }
    }

    /** All that one chunk of output changes: screen, log, replies, and what everyone was sent. */
    method OnOutput(bytes: Bytes, logging: Logging)
      requires Valid(run, h) && LoggingOf(logging, bytes)
      modifies this
      ensures Valid(run, h) && Spoke(run, old(h), h, bytes, logging)
    {
      hide Valid, Replied, OutputSent, ResyncedAll, Out;
      Answer(run.terminal.replies(h.screen, bytes));
      SpokeLate(run, h);
      h := h.(late := h.late || h.exit.Some?);
      Absorb(bytes, logging);
    }

    /** Sends the live screen to the supervisor, of which there is at most one. */
    method SendScreen(ghost was: Holder<S>, supervisors: set<ClientId>)
      requires Steady(run, was) && h == was.(childExited := h.childExited, exit := h.exit, late := h.late)
      requires supervisors == InRole(h.clients, Supervises)
      modifies this
      ensures OnlyOutboxes(old(h), h)
      ensures Broadcast(old(h.clients), h.clients, supervisors, Out(run, old(h)).snapshot, Out(run, old(h)))
    {
      hide Steady, Broadcast, Settled, Out;
      SteadyRoles(run, was);
      NoOneElseToTell(run, was, was, supervisors);
      NothingSent(h.clients, Out(run, h).snapshot, Out(run, h));
      SnapshotIsFrame(run, h);
      var todo := supervisors;
      ghost var next := h;
      while todo != {}
        invariant todo == supervisors || todo == {}
        invariant todo == supervisors ==> h == next
        invariant todo == {} ==>
          && OnlyOutboxes(next, h)
          && Broadcast(next.clients, h.clients, supervisors, Out(run, next).snapshot, Out(run, next))
        decreases |todo|
      {
        var client :| client in todo;
        assert supervisors == {client};
        Send(client, Out(run, h).snapshot.value);
        todo := todo - {client};
      }
    }

    /** Everyone hears the exit, the supervisor straight after a snapshot of the screen it left. */
    method OnExit(outcome: ExitOutcome)
      requires Valid(run, h)
      modifies this
      ensures Valid(run, h) && Ended(run, old(h), h, outcome)
    {
      hide Steady, Counted, Sized, Broadcast, Settled, Out, OneSupervisor, NoSupervisor, InRole;
      ghost var was := h;
      SteadySettled(run, h);
      SteadyRoles(run, h);
      h := h.(childExited := true, exit := Some(outcome), late := h.late || h.exit.Some?);
      ghost var next := h;
      var supervisors := InRole(h.clients, Supervises);
      SendScreen(was, supervisors);
      ghost var middle := h;
      StillReady(run, next, h, supervisors, Out(run, next).snapshot);
      BroadcastTo(Anyone, Exited(outcome));
      ExitTold(run, was, next, middle, h, outcome, supervisors);
      assert ExitSends(run, next, middle.clients, h.clients, outcome);
    }

    /** A connection joins, yet without a role; one whose stream cannot be cloned only uses up its number. */
    method OnConnected(client: ClientId, cloned: bool)
      requires Valid(run, h) && client >= h.connections
      modifies this
      ensures Valid(run, h) && h == Joined(old(h), client, cloned)
    {
      ghost var was := h;
      h := h.(connections := client + 1);
      if cloned {
        h := h.(clients := h.clients[client := Client(None, Empty(CLIENT_OUTBOX_BYTES))]);
      }
      JoinedValid(run, was, client, cloned);
    }

    // ----- what a client asks -----

    /** Drops every supervisor, of which there is at most one. */
    method EvictSupervisors(ghost client: ClientId)
      requires Valid(run, h) && client in h.clients && h.clients[client].role.None?
      modifies this
      ensures Valid(run, h) && Departed(run, old(h), h, InRole(old(h.clients), Supervises))
      ensures NoSupervisor(h.clients) && client in h.clients
    {
      hide Steady, Counted, Sized, Departed;
      ghost var was := h;
      var previous := InRole(h.clients, Supervises);
      NoneDepart(run, h);
      AtMostOne(run, h);
      var todo := previous;
      while todo != {}
        invariant todo == previous || todo == {}
        invariant todo == previous ==> h == was
        invariant todo == {} ==> Valid(run, h) && Departed(run, was, h, previous)
        decreases |todo|
      {
        var evicted :| evicted in todo;
        assert previous == {evicted};
        DropClient(evicted);
        todo := todo - {evicted};
      }
      SupervisorsDeparted(run, was, h, client);
    }

    /** The client is in its role and in sync; a pending warning is sent to it if it supervises. */
    method Introduce(client: ClientId, role: Role)
      requires Valid(run, h) && client in h.clients && h.clients[client].role.None?
      requires role.Supervisor? ==> NoSupervisor(h.clients) && h.supervised
      modifies this
      ensures Steady(run, h) && Sized(h)
      ensures h.clients.Keys == old(h.clients.Keys) && h.clients[client].role == Some(role)
      ensures forall c :: c in h.clients && c != client ==> h.clients[c] == old(h.clients)[c]
      ensures var owed := role.Supervisor? && old(h.resetWarning).Pending?;
              h == old(h).(clients := h.clients, resetWarning := if owed then Sent else old(h.resetWarning),
                           warned := if owed then Some(client) else old(h.warned))
      ensures Admitted(run, old(h), h, client, role)
    {
      hide Valid, Steady, Sized, OneSupervisor, NoSupervisor, WarnedOnce, Resyncable, NoExit, ResyncedAll, Out;
      ghost var was := h;
      h := h.(clients := h.clients[client := h.clients[client].(role := Some(role))]);
      NewRole(run, was, h, client, role);
      if role.Supervisor? {
        h := h.(reportedAttached := WritableAttached(h.clients));
      }
      ghost var named := h;
      var after := HolderTable.Resync(Everyone(h), Out(run, h), client);
      OwedSent(Everyone(h), after, client, Out(run, h));
      h := h.(clients := after.clients, resetWarning := after.warning, warned := after.warned);
      Introduced(run, was, named, h, client);
    }

    /** A first hello: whoever the role displaces goes, then the client is in it, and all are in sync. */
    method OnHello(client: ClientId, role: Role)
      requires Valid(run, h) && client in h.clients && h.clients[client].role.None?
      modifies this
      ensures Valid(run, h) && Greeted(run, old(h), h, client, role)
    {
      hide ClientOk, Warnings, Settled, Lawful, SizesOk, Serves, FellBack, Without;
      ghost var was := h;
      NoneDepart(run, h);
      if role.Supervisor? {
        h := h.(supervised := true);
        Supervised(run, was);
        EvictSupervisors(client);
      }
      ghost var cleared := h;
      Introduce(client, role);
      ghost var named := h;
      ReportAttached();
      SameRolesSized(named.clients, h.clients, h.resizes, h.size, h.refused);
      GreetedSoFar(run, was, cleared, named, h, client, role);
    }

    /** A refusal reaches the one who asked and changes nothing else. */
    method Reject(client: ClientId, reason: RejectReason)
      requires Valid(run, h) && client in h.clients
      modifies this
      ensures Valid(run, h) && Refused(run, old(h), h, client, reason)
      ensures old(h.clients[client]).role.Some? ==>
        client in h.clients && OnlyOutboxes(old(h), h) && OnlyTold(run, old(h), h, client, Rejected(reason))
    {
      hide Steady, Sized, Settled, Broadcast, Out, OneSupervisor, NoSupervisor, Departed;
      ghost var was := h;
      SteadySettled(run, h);
      SteadyRoles(run, h);
      Send(client, Rejected(reason));
      if was.clients[client].role.Some? {
        RejectionSent(run, was, h, client, reason);
      } else if client !in h.clients {
        NamelessDeparted(run, was, h, client);
      }
    }

    /** A writable client asked for a size: it is the latest now, and the PTY takes it or refuses. */
    method OnResize(client: ClientId, size: Size)
      requires Valid(run, h) && client in h.clients && h.clients[client].role.Some?
      requires Writable(h.clients[client].role.value)
      modifies this
      ensures Valid(run, h) && Resized(run, old(h), h, client, size)
    {
      hide Steady, SizesOk, Broadcast, Without, Refused, WritableAttached;
      ghost var was := h;
      WithSizes(run, h, Without(h.resizes, {client}) + [(client, size)]);
      h := h.(resizes := Without(h.resizes, {client}) + [(client, size)]);
      var taken := TakeSize(size);
      AskedFor(was.clients, h.clients, was.resizes, client, size, was.size, h.size, was.refused, h.refused);
      if !taken {
        Reject(client, ChildUnavailable);
      }
    }

    /** The control goes on record for its supervisor; a graceful stop the child takes arms a timer. */
    method OnControl(client: ClientId, control: Control)
      requires Valid(run, h) && client in h.clients && IsSupervisor(h.clients[client])
      modifies this
      ensures Valid(run, h) && Controlled(run, old(h), h, client, control)
    {
      hide Valid, Broadcast, Refused, WritableAttached;
      Recorded(run, h, h.signals + [Asked(client, control)], h.graces);
      h := h.(signals := h.signals + [Asked(client, control)]);
      var accepted: bool := *;
      if !accepted {
        Reject(client, ChildUnavailable);
      } else if control.Terminate? {
        Recorded(run, h, h.signals, h.graces + [control.grace]);
        h := h.(graces := h.graces + [control.grace]);
      }
    }

    /** The input joins the child's queue whole, or the client hears that it did not. */
    method OnInput(client: ClientId, bytes: Bytes)
      requires Valid(run, h) && client in h.clients && h.clients[client].role.Some?
      requires Writable(h.clients[client].role.value)
      modifies this
      ensures Valid(run, h) && Typed(run, old(h), h, client, bytes)
    {
      hide ClientOk, Serves, SizesOk, Lawful, Broadcast, Inv, Pushed, Ran, Refused, WritableAttached;
      var ok, input := TryPush(h.input, Item(bytes, |bytes|));
      h := h.(input := input);
      if !ok {
        Reject(client, InputBacklogged);
      }
    }

    /** Refuses, obeys or passes over a message, as `Heeded` says; only a collection finishes. */
    method OnMessage(client: ClientId, request: Request) returns (flow: Flow)
      requires Valid(run, h)
      modifies this
      ensures Valid(run, h) && Heeded(run, old(h), h, client, request)
      ensures flow == if EndingOf(old(h), Says(client, request)).Open? then Continue else Finish
    {
      hide Valid, Obeyed, OnlyTold;
      flow := Continue;
      if client !in h.clients {
        return;
      }
      var refusal := Refusal(h, client, request);
      if refusal.Some? {
        Reject(client, refusal.value);
        return;
      }
      flow := OnAccepted(client, request);
    }

    /** Does what a client may ask. */
    method OnAccepted(client: ClientId, request: Request) returns (flow: Flow)
      requires Valid(run, h) && client in h.clients && Refusal(h, client, request).None?
      modifies this
      ensures Valid(run, h) && Obeyed(run, old(h), h, client, request)
      ensures flow == if request.CollectExit? then Finish else Continue
    {
      hide Valid, Greeted, Typed, Resized, Controlled;
      flow := Continue;
      match request
      case Hello(role) => OnHello(client, role);
      case Input(bytes) => OnInput(client, bytes);
      case Resize(size) => OnResize(client, size);
      case Controls(control) => OnControl(client, control);
      case CollectExit => flow := Finish;
    }

    // ----- the loop -----

    /** A client's writer thread takes some of its frames. */
    method OnWriter(client: ClientId)
      requires Valid(run, h)
      modifies this
      ensures Valid(run, h) && Wrote(old(h), h, client)
    {
      hide ClientOk, SizesOk, Lawful, Ran, Warnings;
      if client in h.clients {
        ghost var was := h;
        SteadySettled(run, h);
        var outbox := ConsumerRuns(h.clients[client].outbox);
        h := h.(clients := h.clients[client := h.clients[client].(outbox := outbox)]);
        WriterRan(run, was, h, client);
      }
    }

    /** Handles one event. */
    method Handle(event: Event) returns (ending: Ending)
      requires Valid(run, h) && EventsFrom([event], h.connections)
      modifies this
      ensures Valid(run, h) && Handled(run, old(h), event, h) && ending == EndingOf(old(h), event)
    {
      hide Valid, Spoke, Ended, Heeded, Departed, Wrote;
      ending := Open;
      match event
      case ChildOutput(bytes, logging) => OnOutput(bytes, logging);
      case ChildExited(outcome) => OnExit(outcome);
      case ChildOther =>
      case GraceElapsed =>
        if !h.childExited {
          Recorded(run, h, h.signals + [GraceKill], h.graces);
          h := h.(signals := h.signals + [GraceKill]);
        }
      case SupervisorDeadline =>
        if !h.supervised {
          if !h.childExited {
            Recorded(run, h, h.signals + [DeadlineKill], h.graces);
            h := h.(signals := h.signals + [DeadlineKill]);
          }
          ending := Unsupervised;
        }
      case Connected(client, cloned) => OnConnected(client, cloned);
      case Says(client, request) =>
        var flow := OnMessage(client, request);
        if flow == Finish {
          ending := Collected(client);
        }
      case Disconnected(client) => DropClient(client);
      case WriterRuns(client) => OnWriter(client);
    }

    /** Handles events in turn until one ends serving. Whatever they are, and whenever each writer
        runs, every client knows what it should in each state the holder goes through. */
    method Serve(events: seq<Event>) returns (ending: Ending, ghost states: seq<Holder<S>>)
      requires Valid(run, h) && EventsFrom(events, h.connections)
      modifies this
      ensures Trace(run, states, events) && states[0] == old(h) && states[|states| - 1] == h
      ensures forall i :: 0 <= i < |states| ==> Valid(run, states[i])
      ensures var n := |states| - 1;
              && ending == (if n == 0 then Open else EndingOf(states[n - 1], events[n - 1]))
              && (ending.Open? ==> n == |events|)
      ensures Converged(run, h) && LogFollowed(h) && ExitHeard(h) && ResetWarned(h) && CountKnown(h)
      ensures OneSupervisor(h.clients)
    {
      hide Valid, Handled, EndingOf, Trace, Changes, Stays, EventsFrom, Converged, LogFollowed, ExitHeard, ResetWarned,
           CountKnown, OneSupervisor;
      TraceStarts(run, h, events);
      ending := Open;
      states := [h];
      var i := 0;
      while i < |events| && ending.Open?
        invariant i <= |events| && |states| == i + 1 && EventsFrom(events[i..], h.connections)
        invariant Trace(run, states, events) && states[0] == old(h) && states[i] == h
        invariant forall k :: 0 <= k <= i ==> Valid(run, states[k])
        invariant ending == if i == 0 then Open else EndingOf(states[i - 1], events[i - 1])
        decreases |events| - i
      {
        ghost var was := h;
        NextEvent(events, i, h.connections);
        ending := Handle(events[i]);
        EventsGoOn(run, was, events, i, h);
        TraceGoesOn(run, states, events, i, h);
        states := states + [h];
        i := i + 1;
      }
      ValidMeans(run, h);
    }
  }

  // ----- why those calls keep what they promise -----

  lemma TraceStarts<S(!new)>(run: Run<S>, h: Holder<S>, events: seq<Event>)
    ensures Trace(run, [h], events)
  {
  }

  lemma {:induction false} NextEvent(events: seq<Event>, i: nat, connections: nat)
    requires i < |events| && EventsFrom(events[i..], connections)
    ensures EventsFrom([events[i]], connections) && (events[i].Connected? ==> events[i].client >= connections)
    ensures EventsFrom(events[i + 1..], if events[i].Connected? then events[i].client + 1 else connections)
  {
    assert events[i..][1..] == events[i + 1..];
  }

  lemma {:induction false} EventsGoOn<S(!new)>(run: Run<S>, was: Holder<S>, events: seq<Event>, i: nat, h: Holder<S>)
    requires i < |events| && Handled(run, was, events[i], h)
    requires events[i].Connected? ==> events[i].client >= was.connections
    requires EventsFrom(events[i + 1..], if events[i].Connected? then events[i].client + 1 else was.connections)
    ensures EventsFrom(events[i + 1..], h.connections)
  {
    hide Handled, EventsFrom, Stays, ResizesAfter, SentFor, TakesCharge, WarnsOnward, HasLatest;
    EventChanges(run, was, events[i], h);
  }

  lemma {:induction false} TraceGoesOn<S(!new)>(run: Run<S>, states: seq<Holder<S>>, events: seq<Event>, i: nat,
          h: Holder<S>)
    requires Trace(run, states, events) && |states| == i + 1 <= |events| && Handled(run, states[i], events[i], h)
    requires events[i].Connected? ==> events[i].client >= states[i].connections
    requires i > 0 ==> EndingOf(states[i - 1], events[i - 1]).Open?
    ensures Trace(run, states + [h], events)
  {
    hide Handled, EndingOf;
    var more := states + [h];
    assert forall k :: 0 <= k <= i ==> more[k] == states[k];
  }

  /** After a push, refused or not, a client yet to say hello is as it was but for the push. */
  lemma {:induction false} TriedToPush<S(!new)>(run: Run<S>, was: Holder<S>, h: Holder<S>, client: ClientId,
          frame: Frame, ok: bool)
    requires client in was.clients && client in h.clients && Settled(was.clients[client].outbox)
    requires Settled(h.clients[client].outbox)
    requires h == was.(clients := was.clients[client := was.clients[client].(outbox := h.clients[client].outbox)])
    requires if ok then Pushed(was.clients[client].outbox, h.clients[client].outbox, frame)
             else Ran(was.clients[client].outbox, h.clients[client].outbox)
    requires !ok ==> Overfull(was.clients[client].outbox, frame)
    requires was.clients[client].role.None? ==> Valid(run, was) && frame.value.Rejected?
    requires OneSupervisor(was.clients) && (was.resetWarning.Pending? ==> NoSupervisor(was.clients))
    ensures OneSupervisor(h.clients) && (h.resetWarning.Pending? ==> NoSupervisor(h.clients))
    ensures OnlyOutboxes(was, h) && Out(run, h) == Out(run, was)
    ensures PushedTo(was.clients, h.clients, {client}, if ok then {} else {client}, frame)
    ensures h.clients[client].role.None? ==> Valid(run, h)
  {
    hide Valid, Inv, Pushed, Ran;
    SameRolesSameCount(was.clients, h.clients);
    if was.clients[client].role.None? {
      TriedWithoutRole(run, was, h, client, frame, ok);
    }
  }

  lemma {:induction false} TriedWithoutRole<S(!new)>(run: Run<S>, was: Holder<S>, h: Holder<S>, client: ClientId,
          frame: Frame, ok: bool)
    requires Valid(run, was) && client in was.clients && was.clients[client].role.None? && frame.value.Rejected?
    requires client in h.clients && Settled(h.clients[client].outbox)
    requires h == was.(clients := was.clients[client := was.clients[client].(outbox := h.clients[client].outbox)])
    requires if ok then Pushed(was.clients[client].outbox, h.clients[client].outbox, frame)
             else Ran(was.clients[client].outbox, h.clients[client].outbox)
    ensures Valid(run, h)
  {
    hide ClientOk, Warnings, Settled, Pushed, Ran, SizesOk, Lawful;
    if ok {
      RejectionOk(run.terminal, Here(was), was.clients[client], h.clients[client], frame);
    } else {
      RanOk(run.terminal, Here(was), was.clients[client], h.clients[client]);
    }
    OneClientServes(run.terminal, Here(was), Everyone(was), Everyone(h), client, was.supervised);
    StillCounted(run, was, h);
  }

  /** A push, and the resync of a client it stalled, is one frame sent. */
  lemma {:induction false} SentTo<S(!new)>(run: Run<S>, was: Holder<S>, pushed: Holder<S>, h: Holder<S>,
          client: ClientId, message: Message, ok: bool)
    requires client in was.clients && Settled(was.clients[client].outbox)
    requires OnlyOutboxes(was, pushed) && Out(run, pushed) == Out(run, was)
    requires PushedTo(was.clients, pushed.clients, {client}, if ok then {} else {client}, FrameOf(run, message))
    requires was.resetWarning.Pending? ==> NoSupervisor(was.clients)
    requires ok ==> h == pushed
    requires !ok && was.clients[client].role.Some? ==>
      OnlyOutboxes(pushed, h) && ResyncedAll(Everyone(pushed), Everyone(h), {client}, Out(run, pushed))
    requires !ok && was.clients[client].role.None? ==> Departed(run, pushed, h, {client})
    ensures Delivered(run, was, h, client, message)
  {
    hide Resynced, Appended, Settled, Out, Ran, Without, Departed;
    if was.clients[client].role.Some? {
      var stalled: set<ClientId> := if ok then {} else {client};
      assert ResyncedAll(Everyone(was).(clients := pushed.clients), Everyone(h), stalled, Out(run, was));
      BroadcastDone(Everyone(was), pushed.clients, Everyone(h), {client}, stalled,
                    FrameOf(run, message), Out(run, was));
    } else if ok {
      assert h.clients == was.clients[client := h.clients[client]];
    } else {
      GoneAllTheSame(run, was, pushed, h, client);
    }
  }

  /** What was queued for a client is nothing once it is gone. */
  lemma {:induction false} GoneAllTheSame<S(!new)>(run: Run<S>, was: Holder<S>, pushed: Holder<S>, h: Holder<S>,
          client: ClientId)
    requires OnlyOutboxes(was, pushed) && Departed(run, pushed, h, {client})
    requires forall c :: c in was.clients && c != client ==> pushed.clients[c] == was.clients[c]
    ensures Departed(run, was, h, {client}) && client !in h.clients
  {
    hide Without, CountTold, SizeTold;
    assert pushed.clients - {client} == was.clients - {client};
    var counted :| DepartureTold(run, pushed, counted, h, {client});
    assert DepartureTold(run, was, counted, h, {client});
  }

  lemma {:induction false} NoOneElseToTell<S(!new)>(run: Run<S>, was: Holder<S>, h: Holder<S>,
          supervisors: set<ClientId>)
    requires Steady(run, was) && h == was.(reportedAttached := h.reportedAttached)
    requires supervisors == InRole(was.clients, Supervises)
    ensures forall c :: c in was.clients && IsSupervisor(was.clients[c]) ==> supervisors == {c}
    ensures supervisors == {} ==> Steady(run, h)
    ensures forall c :: c in supervisors ==> Settled(h.clients[c].outbox) && h.clients[c].role == Some(Supervisor)
  {
    hide Warnings, ClientOk;
    SteadySettled(run, was);
    forall c | c in was.clients && IsSupervisor(was.clients[c]) ensures supervisors == {c} {
      assert c in supervisors;
    }
    if supervisors == {} {
      NoOneToTell(run.terminal, Here(was), Everyone(was), was.supervised, h.reportedAttached);
    }
  }

  lemma {:induction false} NoneTold<S(!new)>(run: Run<S>, h: Holder<S>)
    ensures h.reportedAttached == WritableAttached(h.clients) || InRole(h.clients, Supervises) == {} ==>
      CountTold(run, h, h.clients)
  {
    hide Out, WritableAttached;
    NothingSent(h.clients, FrameOf(run, Attached(WritableAttached(h.clients))), Out(run, h));
  }

  lemma {:induction false} ToldTheCount<S(!new)>(run: Run<S>, was: Holder<S>, h: Holder<S>, client: ClientId)
    requires Steady(run, was) && client in was.clients && IsSupervisor(was.clients[client])
    requires var attached := WritableAttached(was.clients); var told := was.(reportedAttached := attached);
             && attached != was.reportedAttached
             && OnlyOutboxes(told, h) && OnlyTold(run, told, h, client, Attached(attached))
    ensures Steady(run, h) && CountTold(run, was, h.clients)
  {
    hide ClientOk, Reached, Warnings, Settled, Lawful;
    var attached := WritableAttached(was.clients);
    var told := was.(reportedAttached := attached);
    assert InRole(was.clients, Supervises) == {client};
    OutgoingHere(run, told);
    CountIsForSupervisors(run.terminal, Here(was), was.clients, attached);
    BroadcastServes(run.terminal, Here(was), Here(told), Everyone(was), Everyone(h), {client},
                    FrameOf(run, Attached(attached)), Out(run, told), was.supervised);
  }

  lemma {:induction false} SteadySettled<S(!new)>(run: Run<S>, h: Holder<S>)
    requires Steady(run, h)
    ensures SettledAll(h.clients, h.clients.Keys)
  {
    assert forall c :: c in h.clients ==> ClientOk(run.terminal, Here(h), h.clients[c]);
  }

  lemma SizeKept<S(!new)>(run: Run<S>, h: Holder<S>)
    ensures SizeTold(run, h, false, h.clients)
  {
  }

  lemma LatestWithout(resizes: seq<(ClientId, Size)>, client: ClientId)
    ensures var kept := Without(resizes, {client}); kept != [] ==>
      (SameLatest(resizes, kept) <==> !Latest(resizes, client))
  {
    WithoutKeeps(resizes, {client});
  }

  lemma {:induction false} StillSteady<S(!new)>(run: Run<S>, was: Holder<S>, client: ClientId)
    requires Steady(run, was)
    ensures Steady(run, was.(clients := was.clients - {client}))
  {
    hide ClientOk, Warnings, Settled;
    DropServes(run.terminal, Here(was), Everyone(was), client, was.supervised);
  }

  lemma {:induction false} SizesLeft<S(!new)>(was: Holder<S>, told: Holder<S>, client: ClientId)
    requires Sized(was) && SameRoles(was.clients - {client}, told.clients)
    requires told.resizes == was.resizes && told.size == was.size && told.refused == was.refused
    ensures SizesOk(told.clients, Without(told.resizes, {client}), told.size,
                    told.refused || Latest(told.resizes, client))
  {
    hide SizesOk, Without;
    WithoutKeepsSizes(was.clients, told.clients, was.resizes, client, was.size, was.refused);
  }

  /** Counting who is left and falling back to a size they asked for come to a departure. */
  lemma {:induction false} DroppedSo<S(!new)>(run: Run<S>, was: Holder<S>, told: Holder<S>, h: Holder<S>,
          client: ClientId)
    requires var left := was.(clients := was.clients - {client});
             && told == left.(clients := told.clients, reportedAttached := WritableAttached(left.clients))
             && SameRoles(left.clients, told.clients) && CountTold(run, left, told.clients)
    requires h == told.(resizes := Without(told.resizes, {client}), size := h.size, screen := h.screen,
                        refused := h.refused, clients := h.clients)
    requires SameRoles(told.clients, h.clients) && FellBack(run, told, h)
    requires SizeTold(run, h.(clients := told.clients), h.size != told.size, h.clients)
    ensures Departed(run, was, h, {client})
  {
    hide FellBack, Without, CountTold, SizeTold;
    FellBackSince(run, was, told, h);
    assert DepartureTold(run, was, told.clients, h, {client});
  }

  lemma FellBackSince<S(!new)>(run: Run<S>, was: Holder<S>, told: Holder<S>, h: Holder<S>)
    requires FellBack(run, told, h)
    requires told == was.(clients := told.clients, reportedAttached := told.reportedAttached)
    ensures FellBack(run, was, h)
  {
  }

  /** A resync of one client touches no other, and sends it the warning if it supervises. */
  lemma {:induction false} OwedSent(before: Table, after: Table, client: ClientId, out: Outgoing)
    requires client in before.clients && ResyncedAll(before, after, {client} * before.clients.Keys, out)
    ensures ResyncedAll(before, after, {client}, out)
    ensures var owed := IsSupervisor(before.clients[client]) && before.warning.Pending?;
            && after.warning == (if owed then Sent else before.warning)
            && after.warned == (if owed then Some(client) else before.warned)
    ensures SameRoles(before.clients, after.clients)
    ensures forall c :: c in after.clients && c != client ==> after.clients[c] == before.clients[c]
  {
    hide Resynced;
    assert {client} * before.clients.Keys == {client};
  }

  /** When nobody goes, nothing changes. */
  lemma {:induction false} NoneDepart<S(!new)>(run: Run<S>, h: Holder<S>)
    requires Counted(h)
    ensures Departed(run, h, h, {})
  {
    WithoutAbsent(h.resizes, {});
    assert h.clients - {} == h.clients;
    assert DepartureTold(run, h, h.clients, h, {});
  }

  lemma {:induction false} AtMostOne<S(!new)>(run: Run<S>, h: Holder<S>)
    requires Valid(run, h)
    ensures forall c :: c in InRole(h.clients, Supervises) ==> InRole(h.clients, Supervises) == {c}
  {
    hide ClientOk, Warnings;
  }

  lemma {:induction false} SupervisorsDeparted<S(!new)>(run: Run<S>, was: Holder<S>, h: Holder<S>, client: ClientId)
    requires Departed(run, was, h, InRole(was.clients, Supervises)) && client in was.clients
    requires was.clients[client].role.None?
    ensures NoSupervisor(h.clients) && client in h.clients
  {
    assert forall c :: c in h.clients && IsSupervisor(h.clients[c]) ==> c in InRole(was.clients, Supervises);
  }

  /** A client without a role asked for no size, so its going changes none. */
  lemma {:induction false} NamelessDeparted<S(!new)>(run: Run<S>, was: Holder<S>, h: Holder<S>, client: ClientId)
    requires Valid(run, was) && client in was.clients && was.clients[client].role.None?
    requires Departed(run, was, h, {client})
    ensures h == was.(clients := was.clients - {client})
  {
    hide Steady;
    WithoutAbsent(was.resizes, {client});
    assert AttachedWriters(was.clients - {client}) == AttachedWriters(was.clients);
  }

  /** Evicting, naming and reporting come to a greeting. */
  lemma {:induction false} GreetedSoFar<S(!new)>(run: Run<S>, was: Holder<S>, cleared: Holder<S>, named: Holder<S>,
          h: Holder<S>, client: ClientId, role: Role)
    requires client in was.clients && was.clients[client].role.None?
    requires Departed(run, was.(supervised := was.supervised || role.Supervisor?), cleared, Evicted(was.clients, role))
    requires client in named.clients && named.clients[client].role == Some(role)
    requires var owed := role.Supervisor? && cleared.resetWarning.Pending?;
             named == cleared.(clients := named.clients, resetWarning := if owed then Sent else cleared.resetWarning,
                               warned := if owed then Some(client) else cleared.warned)
    requires Admitted(run, cleared, named, client, role) && CountTold(run, named, h.clients)
    requires named.clients.Keys == cleared.clients.Keys
    requires forall c :: c in named.clients && c != client ==> named.clients[c] == cleared.clients[c]
    requires h == named.(clients := h.clients, reportedAttached := WritableAttached(h.clients))
    requires SameRoles(named.clients, h.clients)
    ensures Greeted(run, was, h, client, role)
  {
    hide Without, CountTold, DepartureTold, ResyncedAll;
    assert GreetingTold(run, was, cleared, named, h, client, role);
  }

  lemma SameOut<S(!new)>(run: Run<S>, before: Holder<S>, after: Holder<S>)
    requires OnlyOutboxes(before, after)
    ensures Out(run, after) == Out(run, before)
  {
    SameRolesSameCount(before.clients, after.clients);
  }

  lemma {:induction false} BroadcastKeepsRoles(before: Clients, after: Clients, taken: set<ClientId>, f: Frame,
          out: Outgoing)
    requires Broadcast(before, after, taken, f, out) && SettledAll(before, before.Keys)
    ensures SameRoles(before, after) && SettledAll(after, after.Keys)
  {
    hide Settled;
  }

  lemma {:induction false} WholeOutput<S(!new)>(run: Run<S>, was: Holder<S>, next: Holder<S>, h: Holder<S>,
          bytes: Bytes)
    requires Valid(run, was)
    requires next == was.(screen := run.terminal.feed(was.screen, bytes).screen, log := was.log + bytes)
    requires OnlyOutboxes(next, h)
    requires Broadcast(was.clients, h.clients, InRole(was.clients, Anyone),
                       FrameOf(run, Output(|was.log|, bytes)), Out(run, next))
    ensures Steady(run, h)
  {
    hide ClientOk, Warnings, Settled, Reached;
    OutgoingHere(run, next);
    Unintroduced(run.terminal, Here(was), Here(next), was.clients);
    BroadcastServes(run.terminal, Here(was), Here(next), Everyone(was), Everyone(h),
                    InRole(was.clients, Anyone), FrameOf(run, Output(|was.log|, bytes)),
                    Out(run, next), was.supervised);
  }

  lemma {:induction false} SplitOutput<S(!new)>(run: Run<S>, was: Holder<S>, next: Holder<S>, middle: Holder<S>,
          h: Holder<S>, held: Bytes, bytes: Bytes)
    requires Valid(run, was)
    requires next == was.(screen := run.terminal.feed(was.screen, bytes).screen, log := was.log + held)
    requires OnlyOutboxes(next, middle) && OnlyOutboxes(middle, h) && Out(run, middle) == Out(run, next)
    requires if held == [] then middle == next
             else Broadcast(next.clients, middle.clients, InRole(next.clients, Supervises),
                            FrameOf(run, Output(|was.log|, held)), Out(run, next))
    requires Broadcast(middle.clients, h.clients, InRole(middle.clients, Attaches),
                       FrameOf(run, Output(|was.log|, bytes)), Out(run, next))
    ensures Steady(run, h)
  {
    hide ClientOk, Warnings, Settled, Reached;
    OutgoingHere(run, next);
    assert InRole(middle.clients, Attaches) == InRole(next.clients, Attaches);
    SplitOutputServes(run.terminal, Here(was), Here(next), Everyone(was), middle.clients, Everyone(h),
                      InRole(was.clients, Supervises), InRole(was.clients, Attaches),
                      FrameOf(run, Output(|was.log|, held)), FrameOf(run, Output(|was.log|, bytes)),
                      Out(run, next), was.supervised);
  }

  lemma {:induction false} UnloggedOutput<S(!new)>(run: Run<S>, was: Holder<S>, h: Holder<S>, unlogged: Bytes)
    requires Steady(run, was) && Counted(was) && OnlyOutboxes(was, h)
    requires Broadcast(was.clients, h.clients, InRole(was.clients, Supervises),
                       FrameOf(run, Unlogged(unlogged)), Out(run, was))
    ensures Steady(run, h)
  {
    hide ClientOk, Warnings, Settled, Reached;
    OutgoingHere(run, was);
    BroadcastServes(run.terminal, Here(was), Here(was), Everyone(was), Everyone(h),
                    InRole(was.clients, Supervises), FrameOf(run, Unlogged(unlogged)),
                    Out(run, was), was.supervised);
  }

  lemma {:induction false} StillValid<S(!new)>(run: Run<S>, was: Holder<S>, h: Holder<S>)
    requires Valid(run, was) && OnlyOutboxes(was, h) && Steady(run, h)
    ensures Valid(run, h)
  {
    hide Steady;
    SameRolesSameCount(was.clients, h.clients);
    SameRolesSized(was.clients, h.clients, h.resizes, h.size, h.refused);
  }

  lemma {:induction false} StillCounted<S(!new)>(run: Run<S>, was: Holder<S>, h: Holder<S>)
    requires Valid(run, was) && Steady(run, h) && SameRoles(was.clients, h.clients)
    requires h.reportedAttached == was.reportedAttached && h.resizes == was.resizes && h.size == was.size
    requires h.refused == was.refused
    ensures Valid(run, h)
  {
    hide Steady;
    SameRolesSameCount(was.clients, h.clients);
    SameRolesSized(was.clients, h.clients, h.resizes, h.size, h.refused);
  }

  lemma {:induction false} SpokeLate<S(!new)>(run: Run<S>, h: Holder<S>)
    requires Valid(run, h)
    ensures Valid(run, h.(late := h.late || h.exit.Some?))
  {
    hide ClientOk, SizesOk, Settled, Warnings;
    LateServes(run.terminal, Here(h), Everyone(h), h.supervised, h.late || h.exit.Some?);
  }

  lemma {:induction false} AllResyncable<S(!new)>(run: Run<S>, was: Holder<S>, h: Holder<S>, all: set<ClientId>)
    requires Steady(run, was) && (was.exit.Some? ==> was.late)
    requires h == was.(screen := h.screen, log := h.log, resetWarning := h.resetWarning) && was.log <= h.log
    requires all == InRole(h.clients, Anyone)
    ensures SettledAll(h.clients, all)
    ensures forall c :: c in all ==> Resyncable(Here(h), h.clients[c]) && (h.late || NoExit(Frames(h.clients[c])))
    ensures forall c :: c in h.clients && c !in all ==>
      h.clients[c].role.None? && ClientOk(run.terminal, Here(h), h.clients[c])
  {
    hide Warnings, Tiled, ExitsShown, End, Told, Replay, Inv;
    Unintroduced(run.terminal, Here(was), Here(h), h.clients);
    forall c | c in all
      ensures Settled(h.clients[c].outbox) && Resyncable(Here(h), h.clients[c])
      ensures h.late || NoExit(Frames(h.clients[c]))
    {
      assert ClientOk(run.terminal, Here(was), h.clients[c]);
      if IsSupervisor(h.clients[c]) {
        HistoryGrows(Here(was), Here(h), h.clients[c]);
      }
    }
  }

  lemma {:induction false} ResetServes<S(!new)>(run: Run<S>, was: Holder<S>, h: Holder<S>, after: Table,
          all: set<ClientId>)
    requires Steady(run, was) && Counted(was) && run.terminal.sizeOf(h.screen) == h.size
    requires h == was.(screen := h.screen, log := h.log, resetWarning := h.resetWarning)
    requires h.resetWarning == if was.resetWarning == Unneeded then Pending else was.resetWarning
    requires all == InRole(h.clients, Anyone)
    requires forall c :: c in all ==> Resyncable(Here(h), h.clients[c]) && (h.late || NoExit(Frames(h.clients[c])))
    requires forall c :: c in h.clients && c !in all ==>
      h.clients[c].role.None? && ClientOk(run.terminal, Here(h), h.clients[c])
    requires ResyncedAll(Everyone(h), after, all, Out(run, h))
    ensures Steady(run, h.(clients := after.clients, resetWarning := after.warning, warned := after.warned))
  {
    hide ClientOk, Warnings, Settled, Resynced, Resyncable, Lawful;
    OutgoingHere(run, h);
    ResyncServes(run.terminal, Here(h), Everyone(h), after, all, Out(run, h), h.supervised);
  }

  lemma NothingSent(clients: Clients, f: Frame, out: Outgoing)
    ensures Broadcast(clients, clients, {}, f, out)
  {
  }

  lemma {:induction false} ExitTold<S(!new)>(run: Run<S>, was: Holder<S>, next: Holder<S>, middle: Holder<S>,
          h: Holder<S>, outcome: ExitOutcome, supervisors: set<ClientId>)
    requires Valid(run, was)
    requires next == was.(childExited := true, exit := Some(outcome), late := was.late || was.exit.Some?)
    requires supervisors == InRole(next.clients, Supervises)
    requires OnlyOutboxes(next, middle) && OnlyOutboxes(middle, h) && Out(run, middle) == Out(run, next)
    requires Broadcast(next.clients, middle.clients, supervisors, Out(run, next).snapshot, Out(run, next))
    requires Broadcast(middle.clients, h.clients, InRole(middle.clients, Anyone),
                       FrameOf(run, Exited(outcome)), Out(run, next))
    ensures Valid(run, h)
  {
    hide ClientOk, Warnings, Settled, Reached, SizesOk;
    OutgoingHere(run, next);
    assert InRole(middle.clients, Anyone) == InRole(next.clients, Anyone);
    ExitServes(run.terminal, Here(was), Here(next), Everyone(was), middle.clients, Everyone(h), supervisors,
               InRole(next.clients, Anyone), FrameOf(run, Exited(outcome)), Out(run, next), was.supervised);
    StillCounted(run, was, h);
  }

  /** A new connection has been sent nothing and is owed nothing. */
  lemma {:induction false} JoinedValid<S(!new)>(run: Run<S>, was: Holder<S>, client: ClientId, cloned: bool)
    requires Valid(run, was) && client >= was.connections
    ensures Valid(run, Joined(was, client, cloned))
  {
    hide ClientOk, Warnings, Lawful, Settled, Serves, SizesOk;
    var h := Joined(was, client, cloned);
    assert AttachedWriters(h.clients) == AttachedWriters(was.clients);
    if cloned {
      JoinedServes(run, was, h, client);
    }
  }

  lemma {:induction false} JoinedServes<S(!new)>(run: Run<S>, was: Holder<S>, h: Holder<S>, client: ClientId)
    requires Valid(run, was) && client >= was.connections && h == Joined(was, client, true)
    ensures Serves(run.terminal, Here(h), Everyone(h), h.supervised) && Sized(h)
  {
    hide ClientOk, Warnings, Lawful, Settled, SizesOk;
    NewClientOk(run.terminal, Here(h), h.clients[client]);
    assert h.warned != Some(client);
    MoreClientsSized(was.clients, h.clients, h.resizes, h.size, h.refused);
  }

  lemma MoreClientsSized(before: Clients, after: Clients, resizes: seq<(ClientId, Size)>, size: Size, refused: bool)
    requires SizesOk(before, resizes, size, refused)
    requires before.Keys <= after.Keys
    requires forall c :: c in before && before[c].role.Some? ==> after[c].role == before[c].role
    ensures SizesOk(after, resizes, size, refused)
  {
  }

  lemma NewClientOk<S>(t: Terminal<S>, now: Now<S>, c: Client)
    requires c == Client(None, Empty(CLIENT_OUTBOX_BYTES))
    ensures ClientOk(t, now, c) && Warnings(Frames(c)) == 0
  {
  }

  lemma {:induction false} Supervised<S(!new)>(run: Run<S>, h: Holder<S>)
    requires Valid(run, h)
    ensures Valid(run, h.(supervised := true))
  {
    hide ClientOk, Warnings, Lawful, Settled, SizesOk;
  }

  /** A client that has just said hello is one client in a new role, yet to be told anything. */
  lemma {:induction false} NewRole<S(!new)>(run: Run<S>, was: Holder<S>, h: Holder<S>, client: ClientId, role: Role)
    requires Valid(run, was) && client in was.clients && was.clients[client].role.None?
    requires role.Supervisor? ==> NoSupervisor(was.clients) && was.supervised
    requires h == was.(clients := was.clients[client := was.clients[client].(role := Some(role))])
    ensures OneSupervisor(h.clients) && WarnedOnce(h.clients, h.resetWarning, h.warned) && Sized(h)
    ensures h.supervised || NoSupervisor(h.clients)
    ensures Resyncable(Here(h), h.clients[client]) && NoExit(Frames(h.clients[client]))
    ensures role.Supervisor? ==> WritableAttached(h.clients) == h.reportedAttached
    ensures h.clients.Keys == was.clients.Keys && SettledAll(h.clients, {client} * h.clients.Keys)
  {
    hide Warnings, Lawful, Tiled, ExitsShown, End, Told, Replay, Inv, SizesOk;
    assert ClientOk(run.terminal, Here(was), was.clients[client]);
    MoreClientsSized(was.clients, h.clients, h.resizes, h.size, h.refused);
    NoWarnings(Frames(was.clients[client]));
    OnlyRejectionsHistory(Here(was), h.clients[client]);
    if role.Supervisor? {
      assert AttachedWriters(h.clients) == AttachedWriters(was.clients);
    }
  }

  lemma {:induction false} OnlyRejectionsHistory<S>(now: Now<S>, c: Client)
    requires OnlyRejections(Frames(c))
    ensures History(now, c)
  {
    NoPlaces(Frames(c), |Frames(c)|);
  }

  lemma {:induction false} Introduced<S(!new)>(run: Run<S>, was: Holder<S>, named: Holder<S>, h: Holder<S>,
          client: ClientId)
    requires Valid(run, was) && client in was.clients && was.clients[client].role.None?
    requires client in named.clients && named.clients[client].role.Some?
    requires named == was.(clients := was.clients[client := named.clients[client]])
    requires OneSupervisor(named.clients) && WarnedOnce(named.clients, named.resetWarning, named.warned) && Sized(named)
    requires named.supervised || NoSupervisor(named.clients)
    requires Resyncable(Here(named), named.clients[client]) && NoExit(Frames(named.clients[client]))
    requires IsSupervisor(named.clients[client]) ==> WritableAttached(named.clients) == named.reportedAttached
    requires h == named.(clients := h.clients, resetWarning := h.resetWarning, warned := h.warned)
    requires ResyncedAll(Everyone(named), Everyone(h), {client}, Out(run, named))
    ensures Steady(run, h) && Sized(h)
  {
    hide ClientOk, Resynced, Settled, Resyncable, SizesOk, ResyncedAll, WarnedOnce, NoExit;
    ResyncedSameRoles(Everyone(named), Everyone(h), {client}, Out(run, named));
    OutgoingHere(run, named);
    assert forall c :: c in named.clients && c != client ==> named.clients[c] == was.clients[c];
    ResyncServes(run.terminal, Here(named), Everyone(named), Everyone(h), {client}, Out(run, named), named.supervised);
    SameRolesSized(named.clients, h.clients, h.resizes, h.size, h.refused);
  }

  /** The lists of sizes are no part of what is told. */
  lemma {:induction false} WithSizes<S(!new)>(run: Run<S>, h: Holder<S>, resizes: seq<(ClientId, Size)>)
    requires Steady(run, h) && Counted(h)
    ensures Steady(run, h.(resizes := resizes)) && Counted(h.(resizes := resizes))
  {
    hide Serves, Lawful, Settled;
  }

  lemma SnapshotIsFrame<S(!new)>(run: Run<S>, h: Holder<S>)
    ensures FrameOf(run, Out(run, h).snapshot.value) == Out(run, h).snapshot
  {
  }

  lemma {:induction false} StillReady<S(!new)>(run: Run<S>, was: Holder<S>, h: Holder<S>, taken: set<ClientId>,
          f: Frame)
    requires OnlyOutboxes(was, h) && SettledAll(was.clients, was.clients.Keys) && OneSupervisor(was.clients)
    requires was.resetWarning.Pending? ==> NoSupervisor(was.clients)
    requires Broadcast(was.clients, h.clients, taken, f, Out(run, was))
    ensures SettledAll(h.clients, h.clients.Keys) && OneSupervisor(h.clients) && Out(run, h) == Out(run, was)
    ensures h.resetWarning.Pending? ==> NoSupervisor(h.clients)
  {
    hide Settled;
    BroadcastKeepsRoles(was.clients, h.clients, taken, f, Out(run, was));
    SameRolesSameCount(was.clients, h.clients);
  }

  lemma FedSize<S(!new)>(run: Run<S>, h: Holder<S>, bytes: Bytes)
    requires Valid(run, h)
    ensures run.terminal.sizeOf(run.terminal.feed(h.screen, bytes).screen) == h.size
  {
  }

  lemma SteadyRoles<S(!new)>(run: Run<S>, h: Holder<S>)
    requires Steady(run, h)
    ensures OneSupervisor(h.clients) && (h.resetWarning.Pending? ==> NoSupervisor(h.clients))
  {
  }

  lemma {:induction false} RejectionSent<S(!new)>(run: Run<S>, was: Holder<S>, h: Holder<S>, client: ClientId,
          reason: RejectReason)
    requires Valid(run, was) && client in was.clients && was.clients[client].role.Some? && OnlyOutboxes(was, h)
    requires Broadcast(was.clients, h.clients, {client}, FrameOf(run, Rejected(reason)), Out(run, was))
    ensures Valid(run, h)
  {
    hide ClientOk, Warnings, Settled, Reached, SizesOk;
    OutgoingHere(run, was);
    BroadcastServes(run.terminal, Here(was), Here(was), Everyone(was), Everyone(h), {client},
                    FrameOf(run, Rejected(reason)), Out(run, was), was.supervised);
    StillCounted(run, was, h);
  }

  /** A size asked for is the last asked for, and the PTY's unless it was refused. */
  lemma {:induction false} AskedFor(before: Clients, after: Clients, resizes: seq<(ClientId, Size)>, client: ClientId,
          asked: Size, was: Size, size: Size, wasRefused: bool, refused: bool)
    requires SizesOk(before, resizes, was, wasRefused) && SameRoles(before, after)
    requires client in before && before[client].role.Some? && Writable(before[client].role.value)
    requires !refused ==> size == asked
    ensures SizesOk(after, Without(resizes, {client}) + [(client, asked)], size, refused)
  {
    WithoutKeeps(resizes, {client});
    WithoutDistinct(resizes, {client});
    var kept := Without(resizes, {client});
    forall i | 0 <= i < |kept|
      ensures kept[i].0 in after && after[kept[i].0].role.Some? && Writable(after[kept[i].0].role.value)
    {
      var j :| 0 <= j < |resizes| && resizes[j] == kept[i];
    }
  }

  lemma {:induction false} WriterRan<S(!new)>(run: Run<S>, was: Holder<S>, h: Holder<S>, client: ClientId)
    requires Valid(run, was) && client in was.clients && client in h.clients
    requires h == was.(clients := was.clients[client := was.clients[client].(outbox := h.clients[client].outbox)])
    requires Settled(h.clients[client].outbox) && Ran(was.clients[client].outbox, h.clients[client].outbox)
    ensures Valid(run, h) && OnlyOutboxes(was, h)
  {
    hide ClientOk, Warnings, SizesOk, Settled, Ran, Lawful;
    RanOk(run.terminal, Here(was), was.clients[client], h.clients[client]);
    OneClientServes(run.terminal, Here(was), Everyone(was), Everyone(h), client, was.supervised);
    StillCounted(run, was, h);
  }

  /** What the child was sent, and the timers armed for it, are no part of what is told. */
  lemma {:induction false} Recorded<S(!new)>(run: Run<S>, h: Holder<S>, signals: seq<Signal>, graces: seq<nat>)
    requires Valid(run, h)
    ensures Valid(run, h.(signals := signals, graces := graces))
  {
    hide Serves, SizesOk, Lawful, Settled;
  }
}

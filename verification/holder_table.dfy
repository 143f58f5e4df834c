/** Facts about all of the holder's clients at once. */
module HolderTable {
  import opened ByteQueues
  import opened Basics
  import opened HolderProtocol
  import opened HolderStreams
  import opened HolderClients
  import Sieve

  type Clients = map<ClientId, Client>

  const U32_MAX: nat := 0xFFFF_FFFF

  predicate IsSupervisor(c: Client) {
    c.role == Some(Supervisor)
  }

  function AttachedWriters(clients: Clients): set<ClientId> {
    set c | c in clients && clients[c].role == Some(Attach(false))
  }

  /** The writable attach clients connected, as a `u32` holds it. */
  function WritableAttached(clients: Clients): nat {
    var count := |AttachedWriters(clients)|;
    if count <= U32_MAX then count else U32_MAX
  }

  ghost predicate OneSupervisor(clients: Clients) {
    forall a, b :: a in clients && b in clients && IsSupervisor(clients[a]) && IsSupervisor(clients[b]) ==> a == b
  }

  ghost predicate NoSupervisor(clients: Clients) {
    forall c :: c in clients ==> !IsSupervisor(clients[c])
  }

  ghost predicate AllOk<S>(t: Terminal<S>, now: Now<S>, clients: Clients) {
    forall c :: c in clients ==> ClientOk(t, now, clients[c])
  }

  /** The reset warning is in one stream once it was sent, and in none before. */
  ghost predicate WarnedOnce(clients: Clients, warning: ResetWarning, warned: Option<ClientId>) {
    && (warning.Sent? <==> warned.Some?)
    && forall c :: c in clients ==> Warnings(Frames(clients[c])) == if warned == Some(c) then 1 else 0
  }

  /** Each size is asked for by a connected writable client, each client's only once; and the
      PTY has the size asked for last, unless it ever refused one. */
  ghost predicate SizesOk(clients: Clients, resizes: seq<(ClientId, Size)>, size: Size, refused: bool) {
    && (forall i, j :: 0 <= i < j < |resizes| ==> resizes[i].0 != resizes[j].0)
    && (forall i :: 0 <= i < |resizes| ==>
          && resizes[i].0 in clients && clients[resizes[i].0].role.Some?
          && Writable(clients[resizes[i].0].role.value))
    && (resizes != [] && !refused ==> resizes[|resizes| - 1].1 == size)
  }

  ghost predicate SameRoles(before: Clients, after: Clients) {
    && after.Keys == before.Keys
    && forall c :: c in after ==> after[c].role == before[c].role
  }

  lemma {:induction false} SameRolesSameCount(before: Clients, after: Clients)
    requires SameRoles(before, after)
    ensures WritableAttached(after) == WritableAttached(before)
  {
    assert AttachedWriters(after) == AttachedWriters(before);
  }

  // ----- the table of clients, and what goes out to them -----

  /** The connected clients, where the reset warning stands, and who was sent it. */
  datatype Table = Table(clients: Clients, warning: ResetWarning, warned: Option<ClientId>)

  /** What a resync sends as things stand: the live screen, the held exit, the reset warning. */
  datatype Outgoing = Outgoing(snapshot: Frame, exits: seq<Frame>, warning: Frame)

  ghost predicate OutgoingOf<S>(t: Terminal<S>, now: Now<S>, out: Outgoing) {
    && SnapshotOf(t, now, out.snapshot)
    && ExitsOf(now, out.exits) && out.warning.value.Warning?
  }

  /** The warning a resync of `c` sends along. */
  function Owed(c: Client, warning: ResetWarning, f: Frame): seq<Frame> {
    if IsSupervisor(c) && warning.Pending? then [f] else []
  }

  /** Each of `chosen` was resynced, and no one else touched; a warning pending went to the
      supervisor among them. */
  ghost predicate ResyncedAll(before: Table, after: Table, chosen: set<ClientId>, out: Outgoing) {
    && SameRoles(before.clients, after.clients)
    && (forall c :: c in after.clients ==>
          if c in chosen
          then Resynced(before.clients[c], after.clients[c], out.snapshot,
                        Owed(before.clients[c], before.warning, out.warning), out.exits)
          else after.clients[c] == before.clients[c])
    && if before.warning.Pending? && exists c :: c in chosen && c in before.clients && IsSupervisor(before.clients[c])
       then && after.warning.Sent? && after.warned.Some? && after.warned.value in chosen
            && after.warned.value in before.clients && IsSupervisor(before.clients[after.warned.value])
       else after.warning == before.warning && after.warned == before.warned
  }

  lemma ResyncedSameRoles(before: Table, after: Table, chosen: set<ClientId>, out: Outgoing)
    requires ResyncedAll(before, after, chosen, out)
    ensures SameRoles(before.clients, after.clients)
    ensures after.warned == before.warned || (after.warned.Some? && after.warned.value in before.clients)
  {
    hide Resynced;
  }

  /** One frame sent to each of `taken`, and nothing to anyone else. */
  ghost predicate Broadcast(before: Clients, after: Clients, taken: set<ClientId>, f: Frame, out: Outgoing) {
    && after.Keys == before.Keys
    && forall c :: c in after ==>
         if c in taken
         then Reached(before[c], after[c], f, out.snapshot, out.exits)
         else after[c] == before[c]
  }

  ghost predicate SettledAll(clients: Clients, chosen: set<ClientId>) {
    chosen <= clients.Keys && forall c :: c in chosen ==> Settled(clients[c].outbox)
  }

  /** One client is resynced and no other touched; a warning pending is sent if it supervises. */
  method Resync(table: Table, out: Outgoing, client: ClientId) returns (after: Table)
    requires SettledAll(table.clients, {client} * table.clients.Keys)
    ensures ResyncedAll(table, after, {client} * table.clients.Keys, out)
  {
    if client !in table.clients {
      return table;
    }
    var entry := table.clients[client];
    var owed := Owed(entry, table.warning, out.warning);
    after := if owed == [] then table else table.(warning := Sent, warned := Some(client));
    entry := Replace(entry, out.snapshot, owed, out.exits);
    after := after.(clients := table.clients[client := entry]);
  }

  /** Resyncs each of `chosen`, in any order. */
  method ResyncEach(table: Table, out: Outgoing, chosen: set<ClientId>) returns (after: Table)
    requires SettledAll(table.clients, chosen) && OneSupervisor(table.clients)
    ensures ResyncedAll(table, after, chosen, out)
  {
    hide Settled, Resynced;
    after := table;
    var todo := chosen;
    assert chosen - todo == {};
    while todo != {}
      invariant todo <= chosen && ResyncedAll(table, after, chosen - todo, out)
      decreases |todo|
    {
      var client :| client in todo;
      after := ResyncNext(table, after, out, chosen - todo, client);
      assert chosen - todo + {client} == chosen - (todo - {client});
      todo := todo - {client};
    }
    assert chosen - todo == chosen;
  }

  method ResyncNext(ghost was: Table, table: Table, out: Outgoing, ghost done: set<ClientId>, client: ClientId)
    returns (after: Table)
    requires OneSupervisor(was.clients) && SettledAll(was.clients, {client}) && client !in done
    requires ResyncedAll(was, table, done, out)
    ensures ResyncedAll(was, after, done + {client}, out)
  {
    hide Settled, Resynced;
    assert table.clients[client] == was.clients[client];
    assert {client} * table.clients.Keys == {client};
    after := Resync(table, out, client);
    ResyncedOneMore(was, table, after, done, client, out);
  }

  lemma {:induction false} ResyncedOneMore(was: Table, before: Table, after: Table, done: set<ClientId>,
          client: ClientId, out: Outgoing)
    requires OneSupervisor(was.clients) && client in was.clients && client !in done
    requires ResyncedAll(was, before, done, out) && ResyncedAll(before, after, {client}, out)
    ensures ResyncedAll(was, after, done + {client}, out)
  {
    hide Settled, Resynced;
    assert before.clients[client] == was.clients[client];
    if IsSupervisor(was.clients[client]) {
      assert forall c :: c in done && c in was.clients ==> !IsSupervisor(was.clients[c]);
    }
  }

  /** Queues `f` for each of `taken`, then resyncs those whose outbox was full. */
  method BroadcastTo(table: Table, out: Outgoing, taken: set<ClientId>, f: Frame) returns (after: Table)
    requires SettledAll(table.clients, taken) && OneSupervisor(table.clients)
    requires forall c :: c in taken ==> table.clients[c].role.Some?
    requires table.warning.Pending? ==> NoSupervisor(table.clients)
    ensures Broadcast(table.clients, after.clients, taken, f, out)
    ensures after.warning == table.warning && after.warned == table.warned
  {
    var clients, stalled := PushToEach(table.clients, taken, f);
    after := ResyncEach(table.(clients := clients), out, stalled);
    BroadcastDone(table, clients, after, taken, stalled, f, out);
  }

  /** Each of `taken` has `f` queued, except the `stalled`, whose outbox was full. */
  ghost predicate PushedTo(before: Clients, after: Clients, taken: set<ClientId>, stalled: set<ClientId>, f: Frame) {
    && SameRoles(before, after) && stalled <= taken
    && forall c :: c in after ==>
         if c in stalled then
           Overfull(before[c].outbox, f) && Settled(after[c].outbox) && Ran(before[c].outbox, after[c].outbox)
         else if c in taken then Appended(before[c], after[c], f)
         else after[c] == before[c]
  }

  method PushToEach(clients: Clients, taken: set<ClientId>, f: Frame) returns (after: Clients, stalled: set<ClientId>)
    requires SettledAll(clients, taken)
    ensures PushedTo(clients, after, taken, stalled, f)
  {
    hide Settled, Appended, Ran;
    after, stalled := clients, {};
    var todo := taken;
    assert taken - todo == {};
    while todo != {}
      invariant todo <= taken && PushedTo(clients, after, taken - todo, stalled, f)
      decreases |todo|
    {
      var client :| client in todo;
      after, stalled := PushNext(clients, after, taken - todo, stalled, f, client);
      assert taken - todo + {client} == taken - (todo - {client});
      todo := todo - {client};
    }
    assert taken - todo == taken;
  }

  method PushNext(ghost was: Clients, clients: Clients, ghost done: set<ClientId>, stalled: set<ClientId>,
                  f: Frame, client: ClientId) returns (after: Clients, stalled': set<ClientId>)
    requires SettledAll(was, {client}) && client !in done && PushedTo(was, clients, done, stalled, f)
    ensures PushedTo(was, after, done + {client}, stalled', f)
  {
    assert clients[client] == was[client];
    var ok, outbox := TryPush(clients[client].outbox, f);
    after := clients[client := clients[client].(outbox := outbox)];
    stalled' := if ok then stalled else stalled + {client};
  }

  /** What the consumer took, the mask says it kept. */
  lemma {:induction false} RunMask<T>(q: Queue<T>, r: Queue<T>)
    requires Inv(q) && Inv(r) && Ran(q, r)
    ensures var mask, taken := r.fates[|q.fates|..], |r.fates| - |q.fates|;
            && taken <= |q.channel| && r.channel == q.channel[taken..]
            && Sieve.Kept(q.channel[..taken], mask) == q.channel[..taken]
            && Sieve.Dropped(q.channel[..taken], mask) == []
            && r.consumed == q.consumed + q.channel[..taken]
  {
    hide Sieve.Kept, Sieve.Dropped, Weight;
    ClearProgress(q, r);
    var taken := |r.fates| - |q.fates|;
    assert Sieve.Dropped(q.channel[..taken], r.fates[|q.fates|..]) == r.cleared[|q.cleared|..] == [];
    assert r.consumed == q.consumed + q.channel[..taken] by {
      assert Stream(q) == q.consumed + q.channel[..taken] + r.channel;
      assert r.consumed == Stream(q)[..|r.consumed|];
    }
    assert Sieve.Kept(q.channel[..taken], r.fates[|q.fates|..]) == r.consumed[|q.consumed|..];
  }

  /** A race begun while the consumer ran on is one race: it took what it took first as well. */
  lemma {:induction false} RaceAfterRun<T>(q: Queue<T>, r: Queue<T>, fates: seq<bool>)
    requires Inv(q) && Inv(r) && Ran(q, r) && r.fates <= fates && |q.accepted| <= |fates|
    ensures var mask, later := fates[|q.fates|..|q.accepted|], fates[|r.fates|..|r.accepted|];
            && |mask| == |q.channel| && |later| == |r.channel|
            && q.consumed + Sieve.Kept(q.channel, mask) == r.consumed + Sieve.Kept(r.channel, later)
            && Sieve.Dropped(q.channel, mask) == Sieve.Dropped(r.channel, later)
            && (r.channel == Sieve.Kept(r.channel, later) + Sieve.Dropped(r.channel, later) ==>
                  q.channel == Sieve.Kept(q.channel, mask) + Sieve.Dropped(q.channel, mask))
  {
    hide Sieve.Kept, Sieve.Dropped;
    var taken, first, later := |r.fates| - |q.fates|, r.fates[|q.fates|..], fates[|r.fates|..|r.accepted|];
    RunMask(q, r);
    SplitMask(q.fates, r.fates, fates, |q.accepted|);
    OneRace(q.consumed, q.channel[..taken], first, r.channel, later);
    assert q.channel == q.channel[..taken] + r.channel;
  }

  lemma {:induction false} SplitMask(first: seq<bool>, second: seq<bool>, third: seq<bool>, n: nat)
    requires first <= second <= third && |second| <= n <= |third|
    ensures third[|first|..n] == second[|first|..] + third[|second|..n]
  {
    assert second[|first|..] == third[|first|..|second|];
  }

  lemma {:induction false} OneRace<T>(consumed: seq<T>, taken: seq<T>, first: seq<bool>, rest: seq<T>, later: seq<bool>)
    requires |taken| == |first| && |rest| == |later|
    requires Sieve.Kept(taken, first) == taken && Sieve.Dropped(taken, first) == []
    ensures consumed + Sieve.Kept(taken + rest, first + later) == consumed + taken + Sieve.Kept(rest, later)
    ensures Sieve.Dropped(taken + rest, first + later) == Sieve.Dropped(rest, later)
    ensures rest == Sieve.Kept(rest, later) + Sieve.Dropped(rest, later) ==>
      taken + rest == Sieve.Kept(taken + rest, first + later) + Sieve.Dropped(taken + rest, first + later)
  {
    hide Sieve.Kept, Sieve.Dropped;
    Sieve.Concat(taken, first, rest, later);
    var kept, cleared := Sieve.Kept(rest, later), Sieve.Dropped(rest, later);
    Sieve.Regroup(consumed, taken, kept);
    Sieve.Regroup(taken, kept, cleared);
    assert [] + cleared == cleared;
  }

  /** A resync of a client whose writer had run on is a resync of the client. */
  lemma {:induction false} ResyncAfterRun(before: Client, run: Client, after: Client, out: Outgoing)
    requires run.role == before.role && Settled(before.outbox) && Ran(before.outbox, run.outbox)
    requires Resynced(run, after, out.snapshot, [], out.exits)
    ensures Resynced(before, after, out.snapshot, [], out.exits)
  {
    hide Inv, Sieve.Kept, Sieve.Dropped, WarningsIn;
    RaceAfterRun(before.outbox, run.outbox, after.outbox.fates);
  }

  lemma {:induction false} BroadcastDone(table: Table, clients: Clients, after: Table, taken: set<ClientId>,
          stalled: set<ClientId>, f: Frame, out: Outgoing)
    requires taken <= table.clients.Keys && SettledAll(table.clients, taken)
    requires table.warning.Pending? ==> NoSupervisor(table.clients)
    requires PushedTo(table.clients, clients, taken, stalled, f)
    requires ResyncedAll(table.(clients := clients), after, stalled, out)
    ensures Broadcast(table.clients, after.clients, taken, f, out)
    ensures after.warning == table.warning && after.warned == table.warned
  {
    forall c | c in stalled ensures Reached(table.clients[c], after.clients[c], f, out.snapshot, out.exits) {
      ResyncAfterRun(table.clients[c], clients[c], after.clients[c], out);
    }
  }

  // ----- what the clients then know -----

  /** A frame that conveys what changed, broadcast, leaves every client that took it in sync. */
  lemma {:induction false} BroadcastConveys<S(!new)>(t: Terminal<S>, now: Now<S>, next: Now<S>, before: Clients,
          after: Clients, taken: set<ClientId>, f: Frame, out: Outgoing)
    requires Lawful(t) && taken <= before.Keys && Broadcast(before, after, taken, f, out)
    requires OutgoingOf(t, next, out)
    requires forall c :: c in taken ==>
      && before[c].role.Some? && ClientOk(t, now, before[c])
      && Conveys(t, before[c].role.value, f, now, next)
      && (before[c].role.value.Supervisor? ==> out.snapshot.value.attached == next.told)
      && (f.value.Exited? && before[c].role.value.Supervisor? ==> ShowsScreen(Frames(before[c])))
    ensures SameRoles(before, after)
    ensures forall c :: c in after ==> Warnings(Frames(after[c])) == Warnings(Frames(before[c]))
    ensures forall c :: c in taken ==> ClientOk(t, next, after[c])
  {
    hide ClientOk, Reached, Lawful, Warnings, Conveys, SnapshotOf, ExitsOf, ShowsScreen;
    forall c | c in taken
      ensures after[c].role == before[c].role && Warnings(Frames(after[c])) == Warnings(Frames(before[c]))
      ensures ClientOk(t, next, after[c])
    {
      ReachedConveys(t, now, next, before[c], after[c], f, out.snapshot, out.exits);
    }
  }

  /** Resyncing leaves every client resynced in sync, and sends the owed warning once. */
  lemma {:induction false} ResyncConveys<S(!new)>(t: Terminal<S>, now: Now<S>, before: Table, after: Table,
          chosen: set<ClientId>, out: Outgoing)
    requires Lawful(t) && chosen <= before.clients.Keys
    requires ResyncedAll(before, after, chosen, out) && OutgoingOf(t, now, out)
    requires forall c :: c in chosen ==>
      && Resyncable(now, before.clients[c])
      && (IsSupervisor(before.clients[c]) ==> out.snapshot.value.attached == now.told)
      && (IsSupervisor(before.clients[c]) && before.warning.Pending? ==> now.late || NoExit(Frames(before.clients[c])))
    ensures forall c :: c in after.clients ==>
      Warnings(Frames(after.clients[c])) == Warnings(Frames(before.clients[c]))
        + if c in chosen then |Owed(before.clients[c], before.warning, out.warning)| else 0
    ensures forall c :: c in chosen ==> ClientOk(t, now, after.clients[c])
  {
    hide ClientOk, Resynced, History, Lawful, Warnings, SnapshotOf, ExitsOf, NoExit, Settled;
    forall c | c in chosen
      ensures ClientOk(t, now, after.clients[c])
      ensures Warnings(Frames(after.clients[c]))
        == Warnings(Frames(before.clients[c])) + |Owed(before.clients[c], before.warning, out.warning)|
    {
      ResyncSyncs(t, now, before.clients[c], after.clients[c], out.snapshot,
                  Owed(before.clients[c], before.warning, out.warning), out.exits);
    }
  }

  /** Everyone is in sync, one supervisor speaks for the service, and the reset warning is where
      it should be. */
  ghost predicate Serves<S>(t: Terminal<S>, now: Now<S>, table: Table, supervised: bool) {
    && AllOk(t, now, table.clients)
    && OneSupervisor(table.clients)
    && WarnedOnce(table.clients, table.warning, table.warned)
    && (table.warning.Pending? || !supervised ==> NoSupervisor(table.clients))
  }

  /** Everyone in sync, in the roles and with the warnings they had, is served. */
  lemma {:induction false} StillServed<S(!new)>(t: Terminal<S>, now: Now<S>, next: Now<S>, before: Table,
          after: Table, supervised: bool)
    requires Serves(t, now, before, supervised) && SameRoles(before.clients, after.clients)
    requires AllOk(t, next, after.clients)
    requires after.warning == before.warning && after.warned == before.warned
    requires forall c :: c in after.clients ==>
      Warnings(Frames(after.clients[c])) == Warnings(Frames(before.clients[c]))
    ensures Serves(t, next, after, supervised)
  {
    hide ClientOk, Warnings;
  }

  /** A frame that conveys what changed to those it concerns leaves everyone served. */
  lemma {:induction false} BroadcastServes<S(!new)>(t: Terminal<S>, now: Now<S>, next: Now<S>, before: Table,
          after: Table, taken: set<ClientId>, f: Frame, out: Outgoing, supervised: bool)
    requires Lawful(t) && Serves(t, now, before, supervised)
    requires taken <= before.clients.Keys && Broadcast(before.clients, after.clients, taken, f, out)
    requires after.warning == before.warning && after.warned == before.warned
    requires OutgoingOf(t, next, out)
    requires forall c :: c in taken ==>
      && before.clients[c].role.Some?
      && Conveys(t, before.clients[c].role.value, f, now, next)
      && (before.clients[c].role.value.Supervisor? ==> out.snapshot.value.attached == next.told)
      && (f.value.Exited? && before.clients[c].role.value.Supervisor? ==> ShowsScreen(Frames(before.clients[c])))
    requires forall c :: c in before.clients && c !in taken ==> ClientOk(t, next, before.clients[c])
    ensures Serves(t, next, after, supervised) && SameRoles(before.clients, after.clients)
  {
    hide Conveys, Reached, ClientOk, OutgoingOf, Lawful, ShowsScreen, Warnings;
    BroadcastConveys(t, now, next, before.clients, after.clients, taken, f, out);
  }

  /** Resyncing all who are behind leaves everyone served. */
  lemma {:induction false} ResyncServes<S(!new)>(t: Terminal<S>, now: Now<S>, before: Table, after: Table,
          chosen: set<ClientId>, out: Outgoing, supervised: bool)
    requires Lawful(t) && chosen <= before.clients.Keys && OutgoingOf(t, now, out)
    requires OneSupervisor(before.clients) && WarnedOnce(before.clients, before.warning, before.warned)
    requires supervised || NoSupervisor(before.clients)
    requires ResyncedAll(before, after, chosen, out)
    requires forall c :: c in chosen ==>
      && Resyncable(now, before.clients[c])
      && (IsSupervisor(before.clients[c]) ==> out.snapshot.value.attached == now.told)
      && (IsSupervisor(before.clients[c]) && before.warning.Pending? ==> now.late || NoExit(Frames(before.clients[c])))
    requires forall c :: c in before.clients && c !in chosen ==>
      ClientOk(t, now, before.clients[c]) && (before.warning.Pending? ==> !IsSupervisor(before.clients[c]))
    ensures Serves(t, now, after, supervised)
  {
    hide Resynced, ClientOk, OutgoingOf, Lawful, Resyncable, Warnings;
    ResyncConveys(t, now, before, after, chosen, out);
  }

  /** The writer taking frames changes nothing a client is owed. */
  lemma RanOk<S>(t: Terminal<S>, now: Now<S>, before: Client, after: Client)
    requires ClientOk(t, now, before) && after.role == before.role
    requires Settled(after.outbox) && Ran(before.outbox, after.outbox)
    ensures ClientOk(t, now, after) && Frames(after) == Frames(before)
  {
  }

  /** Only supervisors hear the attach count. */
  lemma {:induction false} CountIsForSupervisors<S>(t: Terminal<S>, now: Now<S>, clients: Clients, count: nat)
    requires AllOk(t, now, clients)
    ensures forall c :: c in clients && !IsSupervisor(clients[c]) ==> ClientOk(t, now.(told := count), clients[c])
  {
    forall c | c in clients && !IsSupervisor(clients[c]) ensures ClientOk(t, now.(told := count), clients[c]) {
      Unaffected(t, now, now.(told := count), clients[c]);
    }
  }

  lemma {:induction false} NoOneToTell<S>(t: Terminal<S>, now: Now<S>, table: Table, supervised: bool, count: nat)
    requires Serves(t, now, table, supervised) && NoSupervisor(table.clients)
    ensures Serves(t, now.(told := count), table, supervised)
  {
    hide ClientOk, Warnings;
    CountIsForSupervisors(t, now, table.clients, count);
  }

  /** A client that has not said hello is owed nothing yet. */
  lemma Unintroduced<S>(t: Terminal<S>, now: Now<S>, next: Now<S>, clients: Clients)
    requires AllOk(t, now, clients)
    ensures forall c :: c in clients && clients[c].role.None? ==> ClientOk(t, next, clients[c])
  {
  }

  /** That the child spoke on after its exit only weakens what a supervisor is promised. */
  lemma {:induction false} LateServes<S>(t: Terminal<S>, now: Now<S>, table: Table, supervised: bool, late: bool)
    requires Serves(t, now, table, supervised) && (now.late ==> late)
    ensures Serves(t, now.(late := late), table, supervised)
  {
    hide Tiled, ExitsShown, Replay, End, Told, Inv;
    forall c | c in table.clients ensures ClientOk(t, now.(late := late), table.clients[c]) {
      assert ClientOk(t, now, table.clients[c]);
    }
  }

  /** Output reaching the supervisor as the log held it and everyone else as it came leaves
      everyone served. */
  lemma {:induction false} SplitOutputServes<S(!new)>(t: Terminal<S>, now: Now<S>, next: Now<S>, before: Table,
          middle: Clients, after: Table, supervisors: set<ClientId>, others: set<ClientId>, held: Frame, whole: Frame,
          out: Outgoing, supervised: bool)
    requires Lawful(t) && Serves(t, now, before, supervised) && OutgoingOf(t, next, out)
    requires out.snapshot.value.attached == next.told && next == now.(screen := next.screen, log := next.log)
    requires supervisors == InRole(before.clients, Supervises)
    requires others == InRole(before.clients, Attaches)
    requires if next.log == now.log then middle == before.clients
             else Broadcast(before.clients, middle, supervisors, held, out) && Conveys(t, Supervisor, held, now, next)
    requires Broadcast(middle, after.clients, others, whole, out)
    requires whole.value.Output? && next.screen == t.feed(now.screen, whole.value.bytes).screen
    requires held.value.Output?
    requires after.warning == before.warning && after.warned == before.warned
    ensures Serves(t, next, after, supervised) && SameRoles(before.clients, after.clients)
  {
    hide Broadcast, ClientOk, OutgoingOf, Lawful, Warnings, Conveys, OneSupervisor, NoSupervisor, WarnedOnce;
    HeldReaches(t, now, next, before.clients, middle, supervisors, held, out);
    WholeReaches(t, now, next, middle, after.clients, supervisors, others, whole, out);
    forall c | c in before.clients && before.clients[c].role.None? ensures ClientOk(t, next, after.clients[c]) {
      Unaffected(t, now, next, before.clients[c]);
    }
    StillServed(t, now, next, before, after, supervised);
  }

  /** What the log held of a chunk puts the supervisor in sync, and concerns no one else. */
  lemma {:induction false} HeldReaches<S(!new)>(t: Terminal<S>, now: Now<S>, next: Now<S>, before: Clients,
          middle: Clients, supervisors: set<ClientId>, held: Frame, out: Outgoing)
    requires Lawful(t) && AllOk(t, now, before) && OutgoingOf(t, next, out) && supervisors == InRole(before, Supervises)
    requires out.snapshot.value.attached == next.told && next == now.(screen := next.screen, log := next.log)
    requires held.value.Output?
    requires if next.log == now.log then middle == before
             else Broadcast(before, middle, supervisors, held, out) && Conveys(t, Supervisor, held, now, next)
    ensures SameRoles(before, middle)
    ensures forall c :: c in middle ==> Warnings(Frames(middle[c])) == Warnings(Frames(before[c]))
    ensures forall c :: c in supervisors ==> ClientOk(t, next, middle[c])
    ensures forall c :: c in middle && c !in supervisors ==> middle[c] == before[c]
  {
    hide Reached, ClientOk, OutgoingOf, Lawful, Warnings, Conveys;
    if next.log == now.log {
      forall c | c in supervisors ensures ClientOk(t, next, middle[c]) {
        Unaffected(t, now, next, middle[c]);
      }
    } else {
      BroadcastConveys(t, now, next, before, middle, supervisors, held, out);
    }
  }

  /** The chunk itself puts every attach client in sync, and concerns no one else. */
  lemma {:induction false} WholeReaches<S(!new)>(t: Terminal<S>, now: Now<S>, next: Now<S>, middle: Clients,
          after: Clients, supervisors: set<ClientId>, others: set<ClientId>, whole: Frame, out: Outgoing)
    requires Lawful(t) && OutgoingOf(t, next, out) && supervisors == InRole(middle, Supervises)
    requires others == InRole(middle, Attaches)
    requires forall c :: c in others ==> ClientOk(t, now, middle[c])
    requires forall c :: c in supervisors ==> ClientOk(t, next, middle[c])
    requires next == now.(screen := next.screen, log := next.log)
    requires whole.value.Output? && next.screen == t.feed(now.screen, whole.value.bytes).screen
    requires Broadcast(middle, after, others, whole, out)
    ensures SameRoles(middle, after)
    ensures forall c :: c in after ==> Warnings(Frames(after[c])) == Warnings(Frames(middle[c]))
    ensures forall c :: c in after && middle[c].role.Some? ==> ClientOk(t, next, after[c])
    ensures forall c :: c in after && middle[c].role.None? ==> after[c] == middle[c]
  {
    hide Reached, ClientOk, OutgoingOf, Lawful, Warnings;
    BroadcastConveys(t, now, next, middle, after, others, whole, out);
    forall c | c in after && middle[c].role.Some? ensures ClientOk(t, next, after[c]) {
      assert c in supervisors || c in others;
    }
  }

  /** Those whose role passes a test. */
  function InRole(clients: Clients, takes: Role -> bool): set<ClientId> {
    set c | c in clients && clients[c].role.Some? && takes(clients[c].role.value)
  }

  /** The final screen to the supervisor, then the exit to all, leaves everyone knowing it. */
  lemma {:induction false} ExitServes<S(!new)>(t: Terminal<S>, now: Now<S>, next: Now<S>, before: Table,
          middle: Clients, after: Table, supervisors: set<ClientId>, all: set<ClientId>, exit: Frame, out: Outgoing,
          supervised: bool)
    requires Lawful(t) && Serves(t, now, before, supervised) && OutgoingOf(t, next, out)
    requires out.snapshot.value.attached == next.told
    requires exit.value.Exited? && next == now.(exit := Some(exit.value.outcome), late := next.late)
    requires (now.late ==> next.late)
    requires supervisors == InRole(before.clients, Supervises)
    requires all == InRole(before.clients, Anyone)
    requires Broadcast(before.clients, middle, supervisors, out.snapshot, out)
    requires Broadcast(middle, after.clients, all, exit, out)
    requires after.warning == before.warning && after.warned == before.warned
    ensures Serves(t, next, after, supervised) && SameRoles(before.clients, after.clients)
  {
    hide ClientOk, Reached, Lawful, Warnings, SnapshotOf, ExitsOf, ShowsScreen, OneSupervisor, NoSupervisor, WarnedOnce;
    forall c | c in after.clients
      ensures ClientOk(t, next, after.clients[c]) && after.clients[c].role == before.clients[c].role
      ensures Warnings(Frames(after.clients[c])) == Warnings(Frames(before.clients[c]))
    {
      assert ClientOk(t, now, before.clients[c]);
      if c in supervisors {
        ExitReaches(t, now, next, before.clients[c], middle[c], after.clients[c], exit, out);
      } else if c in all {
        ReachedConveys(t, now, next, before.clients[c], after.clients[c], exit, out.snapshot, out.exits);
      } else {
        Unaffected(t, now, next, before.clients[c]);
      }
    }
    StillServed(t, now, next, before, after, supervised);
  }

  lemma {:induction false} ExitReaches<S(!new)>(t: Terminal<S>, now: Now<S>, next: Now<S>, before: Client,
          middle: Client, after: Client, exit: Frame, out: Outgoing)
    requires Lawful(t) && before.role == Some(Supervisor) && ClientOk(t, now, before) && OutgoingOf(t, next, out)
    requires out.snapshot.value.attached == next.told
    requires exit.value.Exited? && next == now.(exit := Some(exit.value.outcome), late := next.late)
    requires (now.late ==> next.late)
    requires Reached(before, middle, out.snapshot, out.snapshot, out.exits)
    requires Reached(middle, after, exit, out.snapshot, out.exits)
    ensures ClientOk(t, next, after) && after.role == before.role
    ensures Warnings(Frames(after)) == Warnings(Frames(before))
  {
    hide Appended, Resynced, ClientOk, ShowsScreen, Warnings, Lawful, History, ExitKnown, End, Told;
    if Appended(before, middle, out.snapshot) {
      AppendedSnapshot(t, now, next, before, middle, out);
      ReachedConveys(t, now, next, middle, after, exit, out.snapshot, out.exits);
    } else {
      ConveysResyncable(t, now, next, before, exit);
      ResyncSyncs(t, next, before, middle, out.snapshot, [], out.exits);
      assert middle.role == before.role by {
        ResyncedRole(before, middle, out);
      }
      ReachedConveys(t, next, next, middle, after, exit, out.snapshot, out.exits);
    }
  }

  lemma ResyncedRole(before: Client, after: Client, out: Outgoing)
    requires Resynced(before, after, out.snapshot, [], out.exits)
    ensures after.role == before.role
  {
  }

  lemma {:induction false} AppendedSnapshot<S(!new)>(t: Terminal<S>, now: Now<S>, next: Now<S>, before: Client,
          after: Client, out: Outgoing)
    requires before.role == Some(Supervisor) && ClientOk(t, now, before) && SnapshotOf(t, now, out.snapshot)
    requires out.snapshot.value.attached == now.told && Appended(before, after, out.snapshot)
    ensures ClientOk(t, now, after) && after.role == before.role && ShowsScreen(Frames(after))
    ensures Warnings(Frames(after)) == Warnings(Frames(before))
  {
    AppendToSupervisor(t, now, now, before, after, out.snapshot);
  }

  /** Who is gone is owed nothing. */
  lemma DropServes<S>(t: Terminal<S>, now: Now<S>, table: Table, client: ClientId, supervised: bool)
    requires Serves(t, now, table, supervised)
    ensures Serves(t, now, table.(clients := table.clients - {client}), supervised)
  {
  }

  /** When only the screen changed, the attach clients may be resynced and no one else needs it. */
  lemma {:induction false} AttachResyncable<S>(t: Terminal<S>, was: Now<S>, now: Now<S>, clients: Clients,
          attached: set<ClientId>)
    requires AllOk(t, was, clients) && now == was.(screen := now.screen)
    requires attached == InRole(clients, Attaches)
    ensures SettledAll(clients, attached)
    ensures forall c :: c in attached ==> Resyncable(now, clients[c]) && !IsSupervisor(clients[c])
    ensures forall c :: c in clients && c !in attached ==> ClientOk(t, now, clients[c])
  {
    forall c | c in clients && c !in attached ensures ClientOk(t, now, clients[c]) {
      Unaffected(t, was, now, clients[c]);
    }
  }

  /** One client in sync for another in the same role leaves everyone served. */
  lemma {:induction false} OneClientServes<S>(t: Terminal<S>, now: Now<S>, before: Table, after: Table,
          client: ClientId, supervised: bool)
    requires Serves(t, now, before, supervised) && client in before.clients && client in after.clients
    requires after == before.(clients := before.clients[client := after.clients[client]])
    requires after.clients[client].role == before.clients[client].role && ClientOk(t, now, after.clients[client])
    requires Warnings(Frames(after.clients[client])) == Warnings(Frames(before.clients[client]))
    ensures Serves(t, now, after, supervised)
  {
    hide ClientOk, Warnings;
  }

  lemma {:induction false} RejectionOk<S>(t: Terminal<S>, now: Now<S>, before: Client, after: Client, f: Frame)
    requires before.role.None? && ClientOk(t, now, before) && f.value.Rejected? && Appended(before, after, f)
    ensures ClientOk(t, now, after) && Warnings(Frames(after)) == Warnings(Frames(before))
  {
    Append(t, Frames(before), f);
  }

  // ----- the sizes asked for -----

  /** Whether `client` asked for a size last. */
  predicate Latest(resizes: seq<(ClientId, Size)>, client: ClientId) {
    resizes != [] && resizes[|resizes| - 1].0 == client
  }

  /** `resizes` with what those gone asked for left out. */
  function Without(resizes: seq<(ClientId, Size)>, gone: set<ClientId>): seq<(ClientId, Size)>
    decreases |resizes|
  {
    if resizes == [] then []
    else
      var front, last := resizes[..|resizes| - 1], resizes[|resizes| - 1];
      Without(front, gone) + (if last.0 in gone then [] else [last])
  }

  /** What is left was asked for by the others, all of it, in the same order. */
  lemma {:induction false} WithoutKeeps(resizes: seq<(ClientId, Size)>, gone: set<ClientId>)
    ensures var kept := Without(resizes, gone);
            && (forall resize :: resize in kept <==> resize in resizes && resize.0 !in gone)
            && (resizes != [] && resizes[|resizes| - 1].0 !in gone ==>
                  kept != [] && kept[|kept| - 1] == resizes[|resizes| - 1])
    decreases |resizes|
  {
    if resizes != [] {
      var front, last := resizes[..|resizes| - 1], resizes[|resizes| - 1];
      WithoutKeeps(front, gone);
      assert resizes == front + [last];
    }
  }

  /** Whoever asked at most once still did. */
  lemma {:induction false} WithoutDistinct(resizes: seq<(ClientId, Size)>, gone: set<ClientId>)
    requires forall i, j :: 0 <= i < j < |resizes| ==> resizes[i].0 != resizes[j].0
    ensures var kept := Without(resizes, gone); forall i, j :: 0 <= i < j < |kept| ==> kept[i].0 != kept[j].0
    decreases |resizes|
  {
    if resizes != [] {
      var front, last := resizes[..|resizes| - 1], resizes[|resizes| - 1];
      var kept := Without(front, gone);
      WithoutDistinct(front, gone);
      WithoutKeeps(front, gone);
      forall i | 0 <= i < |kept| ensures kept[i].0 != last.0 {
        assert kept[i] in front;
      }
    }
  }

  /** Leaving out who asked for nothing changes nothing. */
  lemma {:induction false} WithoutAbsent(resizes: seq<(ClientId, Size)>, gone: set<ClientId>)
    requires forall i :: 0 <= i < |resizes| ==> resizes[i].0 !in gone
    ensures Without(resizes, gone) == resizes
    decreases |resizes|
  {
    if resizes != [] {
      WithoutAbsent(resizes[..|resizes| - 1], gone);
    }
  }

  /** Forgetting what a client asked for keeps every other size asked for, and which is last
      unless it was that client's. */
  lemma {:induction false} WithoutKeepsSizes(before: Clients, after: Clients, resizes: seq<(ClientId, Size)>,
          client: ClientId, size: Size, refused: bool)
    requires SizesOk(before, resizes, size, refused)
    requires after.Keys == before.Keys - {client} && forall c :: c in after ==> after[c].role == before[c].role
    ensures SizesOk(after, Without(resizes, {client}), size, refused || Latest(resizes, client))
  {
    var kept := Without(resizes, {client});
    WithoutKeeps(resizes, {client});
    WithoutDistinct(resizes, {client});
    forall i | 0 <= i < |kept|
      ensures kept[i].0 in after && after[kept[i].0].role.Some? && Writable(after[kept[i].0].role.value)
    {
      var j :| 0 <= j < |resizes| && resizes[j] == kept[i];
    }
  }
}

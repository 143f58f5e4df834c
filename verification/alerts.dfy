/**
 How calls on one connection share out the alarming events of a project's log, so that each is told
 once. One mark per project says how far the telling has come. A call reads the mark, asks the
 service for a page of later events, then takes the page under the lock; any number of calls may be
 between those steps at once.
 */
module Alerting {
  import opened Basics
  import opened Sieve

  const MAX_ALERTS: nat := 5

  /** The `count`th event of the service run numbered `epoch`. */
  datatype EventSeq = EventSeq(epoch: nat, count: nat)

  predicate IsAfter(a: EventSeq, b: EventSeq) {
    a.epoch == b.epoch && a.count > b.count
  }

  datatype Kind = Crashed | ReadyTimeout | Blocked | Lifecycle(name: string)

  predicate Alarming(kind: Kind) {
    kind.Crashed? || kind.ReadyTimeout? || kind.Blocked?
  }

  datatype StackEvent = StackEvent(at: EventSeq, kind: Kind)

  /** Events after a cursor, oldest first, the newest position, and whether some were dropped. */
  datatype Page = Page(events: seq<StackEvent>, cursor: EventSeq, gap: bool)

  datatype AlertsView = AlertsView(alerts: seq<StackEvent>, omitted: Option<nat>, gap: Option<bool>)

  const NOTHING: AlertsView := AlertsView([], None, None)

  /** Where the mark goes when a page read after `read` is taken with the mark at `current`. */
  function Moved(current: Option<EventSeq>, read: Option<EventSeq>, cursor: EventSeq): Option<EventSeq> {
    if current == read || (current.Some? && IsAfter(cursor, current.value)) then Some(cursor) else current
  }

  /** Whether an event is left after what another call, which moved the mark to `reported`, told. */
  predicate Unreported(event: StackEvent, reported: Option<EventSeq>) {
    reported.None? || event.at.epoch != reported.value.epoch || IsAfter(event.at, reported.value)
  }

  /** The events worth an alert that no other call reported. */
  function Worthy(events: seq<StackEvent>, reported: Option<EventSeq>): seq<StackEvent>
    decreases |events|
  {
    if events == [] then []
    else
      var last := events[|events| - 1];
      Worthy(events[..|events| - 1], reported)
        + (if Alarming(last.kind) && Unreported(last, reported) then [last] else [])
  }

  /** The mark as far as another call moved it since `read`. */
  function Reported(current: Option<EventSeq>, read: Option<EventSeq>): Option<EventSeq> {
    if current == read then None else current
  }

  /** An event an agent is to hear of from a call that read `read` and found the mark at `current`: of
      one of the three kinds, and not covered by a call that moved the mark meanwhile. */
  predicate NewAlarm(event: StackEvent, current: Option<EventSeq>, read: Option<EventSeq>) {
    && (event.kind == Crashed || event.kind == ReadyTimeout || event.kind == Blocked)
    && (|| current == read || current.None?
        || event.at.epoch != current.value.epoch || event.at.count > current.value.count)
  }

  function NewAlarms(events: seq<StackEvent>, current: Option<EventSeq>, read: Option<EventSeq>): (mask: seq<bool>)
    ensures |mask| == |events|
  {
    seq(|events|, i requires 0 <= i < |events| => NewAlarm(events[i], current, read))
  }

  lemma {:induction false} WorthyAreNew(events: seq<StackEvent>, current: Option<EventSeq>, read: Option<EventSeq>)
    ensures Worthy(events, Reported(current, read)) == Kept(events, NewAlarms(events, current, read))
    decreases |events|
  {
    if events != [] {
      var last := |events| - 1;
      WorthyAreNew(events[..last], current, read);
      assert NewAlarms(events, current, read)[..last] == NewAlarms(events[..last], current, read);
    }
  }

  /** What a call tells: nothing when it read no mark; else the newest few, counting the rest. */
  function View(current: Option<EventSeq>, read: Option<EventSeq>, page: Page): AlertsView {
    if read.None? then NOTHING
    else
      var worthy := Worthy(page.events, Reported(current, read));
      var omitted := if |worthy| > MAX_ALERTS then |worthy| - MAX_ALERTS else 0;
      AlertsView(worthy[omitted..], if omitted > 0 then Some(omitted) else None, if page.gap then Some(true) else None)
  }

  function OmittedIn(view: AlertsView): nat {
    if view.omitted.Some? then view.omitted.value else 0
  }

  /** Of a call that had read a mark. */
  lemma {:induction false} ViewShowsNew(current: Option<EventSeq>, read: Option<EventSeq>, page: Page)
    requires read.Some?
    ensures var view, all := View(current, read, page), Kept(page.events, NewAlarms(page.events, current, read));
            && view.alerts == all[if |all| > 5 then |all| - 5 else 0..]
            && view.omitted == (if |all| > 5 then Some(|all| - 5) else None)
            && view.gap == if page.gap then Some(true) else None
  {
    hide Kept, NewAlarms, Worthy;
    WorthyAreNew(page.events, current, read);
  }

  class Alerts<Project(==)> {
    var seen: map<Project, EventSeq>

    constructor ()
      ensures seen == map[]
    {
      seen := map[];
    }

    /** How far the telling has come in `project`. */
    method Since(project: Project) returns (mark: Option<EventSeq>)
      ensures mark == if project in seen then Some(seen[project]) else None
    {
      mark := if project in seen then Some(seen[project]) else None;
    }

    /** Takes a page read after `read`: moves the mark forward and tells what no call told yet. */
    method Take(project: Project, read: Option<EventSeq>, page: Page) returns (view: AlertsView)
      modifies this
      ensures read.None? ==> view.alerts == [] && view.omitted.None? && view.gap.None?
      ensures var current := if project in old(seen) then Some(old(seen)[project]) else None;
              var all := Kept(page.events, NewAlarms(page.events, current, read));
              read.Some? ==>
                && view.alerts == all[if |all| > 5 then |all| - 5 else 0..]
                && view.omitted == (if |all| > 5 then Some(|all| - 5) else None)
                && view.gap == if page.gap then Some(true) else None
      ensures var current := if project in old(seen) then Some(old(seen)[project]) else None;
              var on := current.Some? && page.cursor.epoch == current.value.epoch
                        && page.cursor.count > current.value.count;
              seen == if current == read || on then old(seen)[project := page.cursor] else old(seen)
      ensures var current := if project in old(seen) then Some(old(seen)[project]) else None;
              && view == View(current, read, page)
              && seen == (match Moved(current, read, page.cursor)
                          case None => old(seen)
                          case Some(mark) => old(seen)[project := mark])
    {
      hide Kept, NewAlarms, Worthy;
      var current := Since(project);
      if current == read || (current.Some? && IsAfter(page.cursor, current.value)) {
        seen := seen[project := page.cursor];
      }
      if read.None? {
        return NOTHING;
      }
      var worthy := Gather(page.events, if current != read then current else None);
      ViewShowsNew(current, read, page);
      var omitted := if |worthy| > MAX_ALERTS then |worthy| - MAX_ALERTS else 0;
      view := AlertsView(worthy[omitted..], if omitted > 0 then Some(omitted) else None,
                         if page.gap then Some(true) else None);
    }
  }

  /** Goes through a page for the events worth an alert. */
  method Gather(events: seq<StackEvent>, reported: Option<EventSeq>) returns (worthy: seq<StackEvent>)
    ensures worthy == Worthy(events, reported)
  {
    worthy := [];
    for i := 0 to |events|
      invariant worthy == Worthy(events[..i], reported)
    {
      assert events[..i + 1][..i] == events[..i];
      if Alarming(events[i].kind) && Unreported(events[i], reported) {
        worthy := worthy + [events[i]];
      }
    }
    assert events[..|events|] == events;
  }

  // ----- any number of calls at once, against one service -----

  /** A call that read a mark and awaits its page, or has the page to take. */
  datatype Call = Asked(since: Option<EventSeq>) | Fetched(since: Option<EventSeq>, page: Page)

  /** One project's events under one service, its mark and its calls. The rest is history: where
      the mark began, which events were told (shown or counted), which were passed over by calls
      that read no mark, whether any page had a gap, and what the calls returned. */
  datatype State = State(
    epoch: nat,
    log: seq<Kind>,
    mark: Option<EventSeq>,
    calls: map<nat, Call>,
    base: nat,
    told: seq<nat>,
    passed: set<nat>,
    gapped: bool,
    views: seq<AlertsView>)

  datatype Step =
    | Record(kind: Kind)
    | Begin(call: nat)
    | Fetch(call: nat, page: Page)
    | Take(call: nat)
    | Fail(call: nat)

  function Fresh(epoch: nat): State {
    State(epoch, [], None, map[], 0, [], {}, false, [])
  }

  /** Event `n` of the log. */
  function Nth(s: State, n: nat): StackEvent
    requires 0 < n <= |s.log|
  {
    StackEvent(EventSeq(s.epoch, n), s.log[n - 1])
  }

  ghost predicate InOrder(events: seq<StackEvent>) {
    forall i, j :: 0 <= i < j < |events| ==> events[i].at.count < events[j].at.count
  }

  /** The pages the service answers with: events of its log after the mark asked for, in order, up
      to its newest, and all the alarming ones unless it says there is a gap. */
  ghost predicate PageOf(s: State, since: Option<EventSeq>, page: Page) {
    && page.cursor == EventSeq(s.epoch, |s.log|)
    && (forall i :: 0 <= i < |page.events| ==>
          && 0 < page.events[i].at.count <= |s.log| && page.events[i] == Nth(s, page.events[i].at.count)
          && (since.Some? ==> since.value.count < page.events[i].at.count))
    && InOrder(page.events)
    && (since.Some? && !page.gap ==>
          forall n :: since.value.count < n && AlarmingAt(s.log, n) ==> Nth(s, n) in page.events)
  }

  ghost predicate Enabled(s: State, step: Step) {
    match step
    case Record(_) => true
    case Begin(call) => call !in s.calls
    case Fetch(call, page) => call in s.calls && s.calls[call].Asked? && PageOf(s, s.calls[call].since, page)
    case Take(call) => call in s.calls && s.calls[call].Fetched?
    case Fail(call) => call in s.calls
  }

  function Counts(events: seq<StackEvent>): seq<nat> {
    seq(|events|, i requires 0 <= i < |events| => events[i].at.count)
  }

  /** Whether event `n` of the log is worth an alert. */
  predicate AlarmingAt(log: seq<Kind>, n: nat) {
    0 < n <= |log| && (log[n - 1] == Crashed || log[n - 1] == ReadyTimeout || log[n - 1] == Blocked)
  }

  /** The alarming events of the log past `from`, up to `to`. */
  function AlarmingIn(log: seq<Kind>, from: nat, to: nat): set<nat> {
    set n | from < n <= to && AlarmingAt(log, n)
  }

  ghost function Apply(s: State, step: Step): State
    requires Enabled(s, step)
  {
    match step
    case Record(kind) => s.(log := s.log + [kind])
    case Begin(call) => s.(calls := s.calls[call := Asked(s.mark)])
    case Fetch(call, page) =>
      s.(calls := s.calls[call := Fetched(s.calls[call].since, page)], gapped := s.gapped || page.gap)
    case Fail(call) => s.(calls := s.calls - {call})
    case Take(call) =>
      var read, page := s.calls[call].since, s.calls[call].page;
      var moved := Moved(s.mark, read, page.cursor);
      var rest := s.(calls := s.calls - {call}, mark := moved, views := s.views + [View(s.mark, read, page)]);
      if read.Some? then rest.(told := s.told + Counts(Worthy(page.events, Reported(s.mark, read))))
      else if s.mark.None? then rest.(base := page.cursor.count)
      else rest.(passed := s.passed + AlarmingIn(s.log, s.mark.value.count, moved.value.count))
  }

  ghost predicate Runs(s: State, steps: seq<Step>)
    decreases |steps|
  {
    steps == [] || (Enabled(s, steps[0]) && Runs(Apply(s, steps[0]), steps[1..]))
  }

  ghost function After(s: State, steps: seq<Step>): State
    requires Runs(s, steps)
    decreases |steps|
  {
    if steps == [] then s else After(Apply(s, steps[0]), steps[1..])
  }

  // ----- what every interleaving keeps -----

  ghost predicate Increasing(counts: seq<nat>, from: nat, to: nat) {
    && (forall i :: 0 <= i < |counts| ==> from < counts[i] <= to)
    && (forall i, j :: 0 <= i < j < |counts| ==> counts[i] < counts[j])
  }

  ghost predicate Distinct(counts: seq<nat>) {
    forall i, j :: 0 <= i < j < |counts| ==> counts[i] != counts[j]
  }

  /** A call read a mark no later than the current one, and its page is of this log. */
  ghost predicate CallOk(s: State, call: Call) {
    && (call.since.Some? ==>
          s.mark.Some? && call.since.value.epoch == s.epoch && call.since.value.count <= s.mark.value.count)
    && (call.Fetched? ==>
          var page := call.page;
          && page.cursor.epoch == s.epoch && page.cursor.count <= |s.log|
          && (call.since.Some? ==> call.since.value.count <= page.cursor.count)
          && (forall i :: 0 <= i < |page.events| ==>
                && page.events[i].at.epoch == s.epoch && 0 < page.events[i].at.count <= page.cursor.count
                && page.events[i].kind == s.log[page.events[i].at.count - 1]
                && (call.since.Some? ==> call.since.value.count < page.events[i].at.count))
          && InOrder(page.events)
          && (call.since.Some? && !s.gapped ==>
                forall n :: call.since.value.count < n <= page.cursor.count && AlarmingAt(s.log, n) ==>
                  Nth(s, n) in page.events))
  }

  function MarkCount(s: State): nat {
    if s.mark.Some? then s.mark.value.count else 0
  }

  ghost predicate Inv(s: State) {
    && (s.mark.Some? ==> s.mark.value.epoch == s.epoch && s.base <= s.mark.value.count <= |s.log|)
    && (s.mark.None? ==> s.told == [] && s.passed == {})
    && (forall c :: c in s.calls ==> CallOk(s, s.calls[c]))
    && Distinct(s.told)
    && (forall i :: 0 <= i < |s.told| ==>
          s.base < s.told[i] <= MarkCount(s) && s.told[i] !in s.passed && AlarmingAt(s.log, s.told[i]))
    && (forall n :: n in s.passed ==> s.base < n <= MarkCount(s))
    && (!s.gapped && s.mark.Some? ==>
          forall n :: n in AlarmingIn(s.log, s.base, s.mark.value.count) ==> n in s.told || n in s.passed)
  }

  lemma {:induction false} WorthyIs(events: seq<StackEvent>, reported: Option<EventSeq>)
    ensures forall e :: e in Worthy(events, reported) <==> e in events && Alarming(e.kind) && Unreported(e, reported)
    decreases |events|
  {
    if events != [] {
      WorthyIs(events[..|events| - 1], reported);
      assert events == events[..|events| - 1] + [events[|events| - 1]];
    }
  }

  lemma {:induction false} WorthyInOrder(events: seq<StackEvent>, reported: Option<EventSeq>)
    requires InOrder(events)
    ensures InOrder(Worthy(events, reported))
    decreases |events|
  {
    if events != [] {
      var front, last := events[..|events| - 1], events[|events| - 1];
      WorthyInOrder(front, reported);
      WorthyIs(front, reported);
      forall i | 0 <= i < |Worthy(front, reported)| ensures Worthy(front, reported)[i].at.count < last.at.count {
        assert Worthy(front, reported)[i] in front;
        var k :| 0 <= k < |front| && front[k] == Worthy(front, reported)[i];
        assert events[k] == front[k];
      }
    }
  }

  /** What a call that had read a mark tells: the alarming events of its page past the mark it
      found when it took the page, all of them, each once. */
  ghost function Tells(s: State, call: Call): seq<nat>
    requires call.Fetched?
  {
    Counts(Worthy(call.page.events, Reported(s.mark, call.since)))
  }

  /** Whether a page holds event `n`, worth an alert. */
  ghost predicate HoldsAlarm(events: seq<StackEvent>, n: nat) {
    exists i :: 0 <= i < |events| && events[i].at.count == n && Alarming(events[i].kind)
  }

  /** What a call tells is in order, past the mark and no further than its page. */
  lemma {:induction false} TellsInOrder(s: State, call: Call)
    requires CallOk(s, call) && call.Fetched? && call.since.Some? && s.mark.value.epoch == s.epoch
    ensures Increasing(Tells(s, call), s.mark.value.count, call.page.cursor.count)
    ensures forall i :: 0 <= i < |Tells(s, call)| ==>
      AlarmingAt(s.log, Tells(s, call)[i]) && HoldsAlarm(call.page.events, Tells(s, call)[i])
  {
    var events, reported := call.page.events, Reported(s.mark, call.since);
    var worthy, tells := Worthy(events, reported), Tells(s, call);
    WorthyInOrder(events, reported);
    forall i | 0 <= i < |tells|
      ensures s.mark.value.count < tells[i] <= call.page.cursor.count && AlarmingAt(s.log, tells[i])
      ensures HoldsAlarm(events, tells[i])
    {
      WorthyIs(events, reported);
      assert worthy[i] in events && tells[i] == worthy[i].at.count;
      var k :| 0 <= k < |events| && events[k] == worthy[i];
    }
    forall i, j | 0 <= i < j < |tells| ensures tells[i] < tells[j] {
      assert tells[i] == worthy[i].at.count && tells[j] == worthy[j].at.count;
    }
  }

  /** And it leaves nothing out. */
  lemma {:induction false} TellsPastTheMark(s: State, call: Call)
    requires CallOk(s, call) && call.Fetched? && call.since.Some? && s.mark.value.epoch == s.epoch
    ensures forall n :: n in Tells(s, call) <==> s.mark.value.count < n && HoldsAlarm(call.page.events, n)
  {
    var events, reported := call.page.events, Reported(s.mark, call.since);
    var worthy := Worthy(events, reported);
    TellsInOrder(s, call);
    forall n | s.mark.value.count < n && HoldsAlarm(events, n) ensures n in Tells(s, call) {
      var k :| 0 <= k < |events| && events[k].at.count == n && Alarming(events[k].kind);
      WorthyIs(events, reported);
      assert events[k] in worthy;
      var i :| 0 <= i < |worthy| && worthy[i] == events[k];
      assert Tells(s, call)[i] == n;
    }
  }

  // ----- each step keeps it -----

  lemma {:induction false} RecordKeeps(s: State, kind: Kind)
    requires Inv(s)
    ensures Inv(Apply(s, Record(kind)))
  {
    var r := Apply(s, Record(kind));
    forall c | c in r.calls ensures CallOk(r, r.calls[c]) {
      assert CallOk(s, s.calls[c]);
      GrownLog(s, r, s.calls[c]);
    }
    if !r.gapped && r.mark.Some? {
      forall n | n in AlarmingIn(r.log, r.base, r.mark.value.count) ensures n in r.told || n in r.passed {
        assert n in AlarmingIn(s.log, s.base, s.mark.value.count);
      }
    }
  }

  lemma {:induction false} GrownLog(s: State, r: State, call: Call)
    requires CallOk(s, call) && s.log <= r.log && r == s.(log := r.log)
    ensures CallOk(r, call)
  {
    if call.Fetched? && call.since.Some? && !s.gapped {
      forall n | call.since.value.count < n <= call.page.cursor.count && AlarmingAt(r.log, n)
        ensures Nth(r, n) in call.page.events
      {
        assert AlarmingAt(s.log, n) && Nth(r, n) == Nth(s, n);
      }
    }
  }

  lemma {:induction false} BeginKeeps(s: State, call: nat)
    requires Inv(s) && call !in s.calls
    ensures Inv(Apply(s, Begin(call)))
  {
    var r := Apply(s, Begin(call));
    forall c | c in r.calls ensures CallOk(r, r.calls[c]) {
      assert c != call ==> CallOk(s, s.calls[c]);
    }
  }

  lemma {:induction false} FetchKeeps(s: State, call: nat, page: Page)
    requires Inv(s) && Enabled(s, Fetch(call, page))
    ensures Inv(Apply(s, Fetch(call, page)))
  {
    var r := Apply(s, Fetch(call, page));
    forall c | c in r.calls ensures CallOk(r, r.calls[c]) {
      assert CallOk(s, s.calls[c]);
      if c == call {
        PageFetched(s, r, s.calls[call].since, page);
      } else {
        MoreGaps(s, r, s.calls[c]);
      }
    }
  }

  lemma {:induction false} PageFetched(s: State, r: State, since: Option<EventSeq>, page: Page)
    requires CallOk(s, Asked(since)) && PageOf(s, since, page) && (s.mark.Some? ==> s.mark.value.count <= |s.log|)
    requires r.epoch == s.epoch && r.log == s.log && r.mark == s.mark && r.gapped == (s.gapped || page.gap)
    ensures CallOk(r, Fetched(since, page))
  {
    if since.Some? && !r.gapped {
      forall n | since.value.count < n <= page.cursor.count && AlarmingAt(r.log, n) ensures Nth(r, n) in page.events {
        assert Nth(r, n) == Nth(s, n);
      }
    }
  }

  lemma {:induction false} MoreGaps(s: State, r: State, call: Call)
    requires CallOk(s, call) && r.epoch == s.epoch && r.log == s.log && r.mark == s.mark && (s.gapped ==> r.gapped)
    ensures CallOk(r, call)
  {
    if call.Fetched? && call.since.Some? && !r.gapped {
      forall n | call.since.value.count < n <= call.page.cursor.count && AlarmingAt(r.log, n)
        ensures Nth(r, n) in call.page.events
      {
        assert Nth(r, n) == Nth(s, n);
      }
    }
  }

  lemma {:induction false} FailKeeps(s: State, call: nat)
    requires Inv(s) && call in s.calls
    ensures Inv(Apply(s, Fail(call)))
  {
    var r := Apply(s, Fail(call));
    forall c | c in r.calls ensures CallOk(r, r.calls[c]) {
      assert CallOk(s, s.calls[c]);
    }
  }

  /** The mark moves to the further of where it is and where the page ends. */
  lemma MarkMovesForward(s: State, call: Call)
    requires Inv(s) && CallOk(s, call) && call.Fetched?
    ensures var moved := Moved(s.mark, call.since, call.page.cursor);
            && moved.Some? && moved.value.epoch == s.epoch
            && moved.value.count ==
                 if MarkCount(s) >= call.page.cursor.count then MarkCount(s) else call.page.cursor.count
  {
  }

  /** A later mark outdates no call. */
  lemma {:induction false} LaterMark(s: State, r: State, call: Call)
    requires CallOk(s, call) && r.epoch == s.epoch && r.log == s.log && r.gapped == s.gapped
    requires r.mark.Some? && MarkCount(s) <= r.mark.value.count
    ensures CallOk(r, call)
  {
    if call.Fetched? && call.since.Some? && !s.gapped {
      forall n | call.since.value.count < n <= call.page.cursor.count && AlarmingAt(r.log, n)
        ensures Nth(r, n) in call.page.events
      {
        assert Nth(r, n) == Nth(s, n);
      }
    }
  }

  lemma {:induction false} TakeKeepsCalls(s: State, call: nat)
    requires Inv(s) && Enabled(s, Take(call))
    ensures var r := Apply(s, Take(call)); forall c :: c in r.calls ==> CallOk(r, r.calls[c])
  {
    var r := Apply(s, Take(call));
    MarkMovesForward(s, s.calls[call]);
    forall c | c in r.calls ensures CallOk(r, r.calls[c]) {
      LaterMark(s, r, s.calls[c]);
    }
  }

  lemma {:induction false} TellingKeeps(s: State, call: nat)
    requires Inv(s) && Enabled(s, Take(call)) && s.calls[call].since.Some?
    ensures Inv(Apply(s, Take(call)))
  {
    var r, taken := Apply(s, Take(call)), s.calls[call];
    assert CallOk(s, taken);
    TakeKeepsCalls(s, call);
    MarkMovesForward(s, taken);
    TellsInOrder(s, taken);
    TellsPastTheMark(s, taken);
    assert r.told == s.told + Tells(s, taken);
    if !r.gapped {
      forall n | n in AlarmingIn(r.log, r.base, r.mark.value.count) ensures n in r.told || n in r.passed {
        if n > s.mark.value.count {
          assert Nth(s, n) in taken.page.events;
          assert HoldsAlarm(taken.page.events, n);
          assert n in Tells(s, taken);
        } else {
          assert n in AlarmingIn(s.log, s.base, s.mark.value.count);
        }
      }
    }
  }

  lemma {:induction false} PassingKeeps(s: State, call: nat)
    requires Inv(s) && Enabled(s, Take(call)) && s.calls[call].since.None?
    ensures Inv(Apply(s, Take(call)))
  {
    var r, taken := Apply(s, Take(call)), s.calls[call];
    assert CallOk(s, taken);
    TakeKeepsCalls(s, call);
    MarkMovesForward(s, taken);
    if !r.gapped && s.mark.Some? {
      forall n | n in AlarmingIn(r.log, r.base, r.mark.value.count) ensures n in r.told || n in r.passed {
        if n <= s.mark.value.count {
          assert n in AlarmingIn(s.log, s.base, s.mark.value.count);
        }
      }
    }
  }

  lemma {:induction false} StepKeepsInv(s: State, step: Step)
    requires Inv(s) && Enabled(s, step)
    ensures Inv(Apply(s, step))
  {
    match step
    case Record(kind) => RecordKeeps(s, kind);
    case Begin(call) => BeginKeeps(s, call);
    case Fetch(call, page) => FetchKeeps(s, call, page);
    case Fail(call) => FailKeeps(s, call);
    case Take(call) =>
      if s.calls[call].since.Some? {
        TellingKeeps(s, call);
      } else {
        PassingKeeps(s, call);
      }
  }

  lemma {:induction false} RunKeepsInv(s: State, steps: seq<Step>)
    requires Inv(s) && Runs(s, steps)
    ensures Inv(After(s, steps)) && MarkCount(s) <= MarkCount(After(s, steps))
    decreases |steps|
  {
    hide Inv;
    if steps != [] {
      StepKeepsInv(s, steps[0]);
      MarkNeverGoesBack(s, steps[0]);
      RunKeepsInv(Apply(s, steps[0]), steps[1..]);
    }
  }

  // ----- what agents are told -----

  /** No step moves the mark back. */
  lemma {:induction false} MarkNeverGoesBack(s: State, step: Step)
    requires Inv(s) && Enabled(s, step)
    ensures s.mark.Some? ==> Apply(s, step).mark.Some?
    ensures MarkCount(s) <= MarkCount(Apply(s, step))
  {
    if step.Take? {
      MarkMovesForward(s, s.calls[step.call]);
    }
  }

  /** Under every interleaving of calls within one epoch, each event is told at most once, and only
      alarming ones past where the connection began; and while no page had a gap, the alarming
      events up to the mark are exactly those told and those passed over by a call that had read no
      mark, never both. */
  lemma {:induction false} ToldAtMostOnce(epoch: nat, steps: seq<Step>)
    requires Runs(Fresh(epoch), steps)
    ensures var s := After(Fresh(epoch), steps);
            && Distinct(s.told)
            && (forall n :: n in s.told ==> AlarmingAt(s.log, n) && s.base < n <= MarkCount(s) && n !in s.passed)
            && (!s.gapped ==> forall n :: n in AlarmingIn(s.log, s.base, MarkCount(s)) ==> n in s.told || n in s.passed)
  {
    RunKeepsInv(Fresh(epoch), steps);
    var s := After(Fresh(epoch), steps);
    if s.mark.None? {
      assert AlarmingIn(s.log, s.base, MarkCount(s)) == {};
    }
  }

  /** The events shown by views, by their numbers. */
  ghost function ShownIn(views: seq<AlertsView>): seq<nat>
    decreases |views|
  {
    if views == [] then [] else ShownIn(views[..|views| - 1]) + Counts(views[|views| - 1].alerts)
  }

  /** How many more they only count. */
  ghost function OmittedOver(views: seq<AlertsView>): nat
    decreases |views|
  {
    if views == [] then 0 else OmittedOver(views[..|views| - 1]) + OmittedIn(views[|views| - 1])
  }

  /** Shown events are told ones, none twice, and with those omitted as many. */
  ghost predicate ViewsOk(s: State) {
    && Distinct(ShownIn(s.views))
    && (forall n :: n in ShownIn(s.views) ==> n in s.told)
    && |ShownIn(s.views)| + OmittedOver(s.views) == |s.told|
  }

  /** What one more view adds: of what was just told, the newest. */
  lemma {:induction false} OneMoreView(shown: seq<nat>, told: seq<nat>, tells: seq<nat>, k: nat)
    requires Distinct(shown) && (forall n :: n in shown ==> n in told) && Distinct(told + tells) && k <= |tells|
    ensures Distinct(shown + tells[k..]) && forall n :: n in shown + tells[k..] ==> n in told + tells
  {
    var all, more := told + tells, shown + tells[k..];
    forall i, j | 0 <= i < j < |more| ensures more[i] != more[j] {
      if j >= |shown| {
        var there := |told| + k + (j - |shown|);
        assert all[there] == more[j];
        if i < |shown| {
          assert more[i] in told;
          var here :| 0 <= here < |told| && told[here] == more[i];
          assert all[here] == more[i];
        } else {
          assert all[|told| + k + (i - |shown|)] == more[i];
        }
      }
    }
  }

  lemma {:induction false} ViewAdds(s: State, view: AlertsView)
    ensures ShownIn(s.views + [view]) == ShownIn(s.views) + Counts(view.alerts)
    ensures OmittedOver(s.views + [view]) == OmittedOver(s.views) + OmittedIn(view)
  {
    assert (s.views + [view])[..|s.views|] == s.views;
  }

  lemma InvDistinct(s: State)
    requires Inv(s)
    ensures Distinct(s.told)
  {
  }

  lemma {:induction false} TellingKeepsViews(s: State, call: nat)
    requires Inv(s) && ViewsOk(s) && Enabled(s, Take(call)) && s.calls[call].since.Some?
    ensures ViewsOk(Apply(s, Take(call)))
  {
    hide Inv, Worthy, View, Tells, Counts, ShownIn, OmittedOver, Distinct, Apply;
    var taken, r := s.calls[call], Apply(s, Take(call));
    var view := View(s.mark, taken.since, taken.page);
    StepKeepsInv(s, Take(call));
    InvDistinct(r);
    CallTellsItsPage(s, call);
    ViewAdds(s, view);
    OneMoreView(ShownIn(s.views), s.told, Tells(s, taken), OmittedIn(view));
  }

  lemma {:induction false} PassingKeepsViews(s: State, call: nat)
    requires ViewsOk(s) && Enabled(s, Take(call)) && s.calls[call].since.None?
    ensures ViewsOk(Apply(s, Take(call)))
  {
    hide ShownIn, OmittedOver, Distinct, Moved, AlarmingIn;
    var view := View(s.mark, None, s.calls[call].page);
    ViewAdds(s, view);
    assert Counts(view.alerts) == [];
    assert ShownIn(s.views) + [] == ShownIn(s.views);
  }

  lemma {:induction false} StepKeepsViews(s: State, step: Step)
    requires Inv(s) && ViewsOk(s) && Enabled(s, step)
    ensures ViewsOk(Apply(s, step))
  {
    hide Inv, ShownIn, OmittedOver, Distinct;
    if step.Take? {
      if s.calls[step.call].since.Some? {
        TellingKeepsViews(s, step.call);
      } else {
        PassingKeepsViews(s, step.call);
      }
    }
  }

  lemma {:induction false} RunKeepsViews(s: State, steps: seq<Step>)
    requires Inv(s) && ViewsOk(s) && Runs(s, steps)
    ensures ViewsOk(After(s, steps))
    decreases |steps|
  {
    hide Inv, ViewsOk;
    if steps != [] {
      StepKeepsInv(s, steps[0]);
      StepKeepsViews(s, steps[0]);
      RunKeepsViews(Apply(s, steps[0]), steps[1..]);
    }
  }

  /** Under every interleaving no event is shown twice, in one view or two; every one shown was told;
      and those shown and those counted as omitted are together as many as were told. */
  lemma {:induction false} ShownAtMostOnce(epoch: nat, steps: seq<Step>)
    requires Runs(Fresh(epoch), steps)
    ensures var s := After(Fresh(epoch), steps);
            && Distinct(ShownIn(s.views))
            && (forall n :: n in ShownIn(s.views) ==> n in s.told)
            && |ShownIn(s.views)| + OmittedOver(s.views) == |s.told|
  {
    RunKeepsViews(Fresh(epoch), steps);
  }

  /** A call that had read a mark tells exactly the alarming events of its page past the mark it
      found; its view shows the newest of them and counts the others. */
  lemma {:induction false} CallTellsItsPage(s: State, call: nat)
    requires Inv(s) && Enabled(s, Take(call)) && s.calls[call].since.Some?
    ensures var taken, r := s.calls[call], Apply(s, Take(call));
            var view := View(s.mark, taken.since, taken.page);
            && r.told == s.told + Tells(s, taken) && r.passed == s.passed
            && (forall n :: n in Tells(s, taken) <==> MarkCount(s) < n && HoldsAlarm(taken.page.events, n))
            && |view.alerts| + OmittedIn(view) == |Tells(s, taken)|
            && Counts(view.alerts) == Tells(s, taken)[OmittedIn(view)..]
            && |view.alerts| <= MAX_ALERTS && (view.omitted.Some? ==> |view.alerts| == MAX_ALERTS)
            && (view.gap == Some(true) <==> taken.page.gap) && (view.gap.None? <==> !taken.page.gap)
            && r.views == s.views + [view]
  {
    assert CallOk(s, s.calls[call]);
    TellsPastTheMark(s, s.calls[call]);
  }
}

/**
 A command's wait for its processes: looks at the service until nothing moves or time is up, then a
 report with a row for each.
 */
module SettleReports {
  import opened Basics
  import opened Processes
  import opened Outcomes

  const SETTLE_POLL: nat := 50

  type Listing = seq<ProcessStatus>

  datatype ClientError = Interrupted | Service(message: string)

  /** What is waited for: an action on named processes as first listed, since a time, for so long. */
  datatype Settlement = Settlement(action: Action, before: Listing, names: seq<string>, sent: nat, bound: nat)

  /** One look at the service: what it lists, whether the watcher then ends the wait, and the time. */
  datatype Look = Look(listing: Result<Listing, ClientError>, interrupted: bool, now: nat)

  datatype NoticeLevel = Warning | Error

  datatype Notice = Notice(at: nat, process: Option<string>, level: NoticeLevel, message: string)

  /** All that the wait meets: when it starts, every look it could take, and what comes after. */
  datatype World = World(started: nat, look: nat -> Look, interruptedAtEnd: bool,
                         notices: Result<seq<Notice>, ClientError>)

  datatype WaitEnd = Settled | TimedOut | CutShort

  datatype ProcessOutcome = ProcessOutcome(name: string, outcome: Outcome, block: Option<string>,
                                           status: Option<ProcessStatus>)

  datatype ActionReport = ActionReport(action: Action, processes: seq<ProcessOutcome>, notices: seq<Notice>,
                                       otherNotices: seq<Notice>, waitEnded: WaitEnd)

  predicate FirstNamed(listing: Listing, name: string, k: int) {
    0 <= k < |listing| && listing[k].name == name && forall j :: 0 <= j < k ==> listing[j].name != name
  }

  /** The first process listed under a name. */
  function Find(listing: Listing, name: string): (found: Option<ProcessStatus>)
    ensures found.Some? ==>
      found.value.name == name && exists k :: FirstNamed(listing, name, k) && listing[k] == found.value
    ensures found.None? ==> forall status :: status in listing ==> status.name != name
  {
    if listing == [] then None
    else if listing[0].name == name then
      assert FirstNamed(listing, name, 0);
      Some(listing[0])
    else
      var found := Find(listing[1..], name);
      assert found.Some? ==> exists k :: FirstNamed(listing[1..], name, k) && listing[k + 1] == found.value
                                         && FirstNamed(listing, name, k + 1);
      found
  }

  predicate HasGrace(before: Listing, name: string, grace: nat) {
    Find(before, name).Some? && Find(before, name).value.stopGrace == grace
  }

  /** The longest stop grace among the named processes, or none at all. */
  function LongestGrace(before: Listing, names: seq<string>): (longest: nat)
    ensures forall name, grace: nat :: name in names && HasGrace(before, name, grace) ==> grace <= longest
    ensures longest == 0 || exists name :: name in names && HasGrace(before, name, longest)
  {
    if names == [] then 0
    else
      var rest := LongestGrace(before, names[1..]);
      var first := Find(before, names[0]);
      assert first.Some? ==> HasGrace(before, names[0], first.value.stopGrace);
      if first.Some? && first.value.stopGrace > rest then first.value.stopGrace else rest
  }

  /** Whether a listing shows the named process still settling. */
  predicate IsMoving(action: Action, listing: Listing, name: string) {
    Find(listing, name).Some? && Settling(action, Find(listing, name).value)
  }

  /** The named processes a listing shows still settling. */
  function Moving(action: Action, listing: Listing, names: seq<string>): (moving: seq<ProcessStatus>)
    ensures forall name :: name in names && IsMoving(action, listing, name) ==> Find(listing, name).value in moving
    ensures forall status :: status in moving ==> status.name in names && IsMoving(action, listing, status.name)
  {
    if names == [] then []
    else
      (if IsMoving(action, listing, names[0]) then [Find(listing, names[0]).value] else [])
        + Moving(action, listing, names[1..])
  }

  function Own(s: Settlement): nat {
    SettleTimeout(s.action, LongestGrace(s.before, s.names))
  }

  function Deadline(s: Settlement, w: World): nat {
    w.started + if Own(s) <= s.bound then Own(s) else s.bound
  }

  function WaitEndAtDeadline(own: nat, bound: nat): WaitEnd {
    if bound < own then CutShort else TimedOut
  }

  /** The clock goes forward, and a sleep lasts at least as long as it was asked to. */
  ghost predicate Ticks(w: World) {
    && w.started <= w.look(0).now
    && forall n: nat, m: nat :: n < m ==> w.look(n).now + SETTLE_POLL <= w.look(m).now
  }

  /** Whether a look gave a listing and the watcher let the wait go on. */
  predicate Watched(look: Look) {
    look.listing.Ok? && !look.interrupted
  }

  predicate AnyMoving(s: Settlement, look: Look)
    requires look.listing.Ok?
  {
    exists name :: name in s.names && IsMoving(s.action, look.listing.value, name)
  }

  /** Every look before this one found something moving, before the deadline. */
  ghost predicate WaitedTo(s: Settlement, w: World, n: nat) {
    forall k: nat {:trigger w.look(k)} :: k < n ==>
      Watched(w.look(k)) && AnyMoving(s, w.look(k)) && w.look(k).now < Deadline(s, w)
  }

  /** Whether one of the first looks showed the named process settling. */
  ghost predicate SeenMoving(s: Settlement, w: World, n: nat, name: string) {
    exists k: nat {:trigger w.look(k)} ::
      k < n && w.look(k).listing.Ok? && IsMoving(s.action, w.look(k).listing.value, name)
  }

  /** The wait ended at this look: nothing moves any more, or the deadline has passed. */
  ghost predicate EndsAt(s: Settlement, w: World, n: nat, end: WaitEnd) {
    && WaitedTo(s, w, n)
    && Watched(w.look(n))
    && (end.Settled? <==> !AnyMoving(s, w.look(n)))
    && (!end.Settled? ==> w.look(n).now >= Deadline(s, w))
    && (end.CutShort? ==> s.bound < Own(s))
    && (end.TimedOut? ==> Own(s) <= s.bound)
  }

  predicate About(names: seq<string>, notice: Notice) {
    notice.process.Some? && notice.process.value in names
  }

  /** The notices that are, or are not, about the named processes, in order. */
  function Sorted(notices: seq<Notice>, names: seq<string>, about: bool): seq<Notice> {
    if notices == [] then []
    else (if About(names, notices[0]) == about then [notices[0]] else []) + Sorted(notices[1..], names, about)
  }

  function Since(notices: seq<Notice>, sent: nat): seq<Notice> {
    if notices == [] then []
    else (if notices[0].at >= sent then [notices[0]] else []) + Since(notices[1..], sent)
  }

  /** What is reported of one process. */
  ghost predicate ReportedAs(s: Settlement, w: World, n: nat, name: string, p: ProcessOutcome)
    requires w.look(n).listing.Ok?
  {
    var now := Find(w.look(n).listing.value, name);
    && p.name == name
    && p.status == now
    && p.outcome == Settle(s.action, Find(s.before, name), now, SeenMoving(s, w, n + 1, name))
    && p.block == if now.Some? && !Halts(s.action) then now.value.blockedOn else None
  }

  /** The report of a wait that ended at this look. */
  ghost predicate Reports(s: Settlement, w: World, n: nat, report: ActionReport) {
    && EndsAt(s, w, n, report.waitEnded)
    && !w.interruptedAtEnd && w.notices.Ok?
    && report.action == s.action
    && |report.processes| == |s.names|
    && (forall i :: 0 <= i < |s.names| ==> ReportedAs(s, w, n, s.names[i], report.processes[i]))
    && report.notices == Sorted(Since(w.notices.value, s.sent), s.names, true)
    && report.otherNotices == Sorted(Since(w.notices.value, s.sent), s.names, false)
  }

  /** Why there is no report: a look, the watcher or the last request failed. */
  ghost predicate Fails(s: Settlement, w: World, n: nat, error: ClientError) {
    && WaitedTo(s, w, n)
    && match w.look(n).listing
       case Err(e) => error == e
       case Ok(_) =>
         || (w.look(n).interrupted && error == Interrupted)
         || (w.interruptedAtEnd && error == Interrupted && exists end :: EndsAt(s, w, n, end))
         || (!w.interruptedAtEnd && w.notices == Err(error) && exists end :: EndsAt(s, w, n, end))
  }

  ghost predicate HaveMoved(s: Settlement, w: World, n: nat, moved: set<string>) {
    forall name :: name in s.names ==> (name in moved <==> SeenMoving(s, w, n, name))
  }

  lemma {:induction false} MovedGrows(s: Settlement, w: World, n: nat, moved: set<string>, moving: seq<ProcessStatus>)
    requires HaveMoved(s, w, n, moved) && w.look(n).listing.Ok?
    requires moving == Moving(s.action, w.look(n).listing.value, s.names)
    ensures HaveMoved(s, w, n + 1, moved + set status | status in moving :: status.name)
    ensures moving == [] <==> !AnyMoving(s, w.look(n))
  {
    hide Settling, Find, Moving;
    var listing := w.look(n).listing.value;
    if AnyMoving(s, w.look(n)) {
      var name :| name in s.names && IsMoving(s.action, listing, name);
      assert Find(listing, name).value in moving;
    }
    if moving != [] {
      assert moving[0] in moving;
    }
    forall name | name in s.names
      ensures name in moved + (set status | status in moving :: status.name) <==> SeenMoving(s, w, n + 1, name)
    {
      if IsMoving(s.action, listing, name) {
        assert Find(listing, name).value in moving;
      }
    }
  }

  lemma {:induction false} EachReported(s: Settlement, w: World, n: nat, after: Listing, moved: set<string>,
          processes: seq<ProcessOutcome>)
    requires w.look(n).listing == Ok(after) && HaveMoved(s, w, n + 1, moved)
    requires |processes| == |s.names|
    requires forall i :: 0 <= i < |s.names| ==> processes[i] == OutcomeOf(s, after, moved, s.names[i])
    ensures forall i :: 0 <= i < |s.names| ==> ReportedAs(s, w, n, s.names[i], processes[i])
  {
    hide Find, Settle, SeenMoving, Halts;
    forall i | 0 <= i < |s.names| ensures ReportedAs(s, w, n, s.names[i], processes[i]) {
      assert s.names[i] in s.names;
    }
  }

  lemma NoneMoved(s: Settlement, w: World)
    ensures HaveMoved(s, w, 0, {})
  {
  }

  datatype Wait = Wait(after: Listing, moved: set<string>, ended: WaitEnd)

  /** Looks every so often until nothing named moves, the deadline passes or the watcher ends it;
      `last` is the look it ended at. */
  method Await(s: Settlement, w: World) returns (r: Result<Wait, ClientError>, last: nat)
    requires Ticks(w)
    ensures r.Ok? ==>
      && EndsAt(s, w, last, r.value.ended)
      && w.look(last).listing == Ok(r.value.after)
      && HaveMoved(s, w, last + 1, r.value.moved)
    ensures r.Err? ==> Fails(s, w, last, r.error)
  {
    hide Find, Moving, LongestGrace, SettleTimeout, AnyMoving, HaveMoved;
    var own := SettleTimeout(s.action, LongestGrace(s.before, s.names));
    var deadline := w.started + if own <= s.bound then own else s.bound;
    var moved: set<string> := {};
    NoneMoved(s, w);
    var n := 0;
    while true
      invariant WaitedTo(s, w, n) && HaveMoved(s, w, n, moved)
      decreases deadline - w.look(n).now
    {
      var look := w.look(n);
      if look.listing.Err? {
        return Err(look.listing.error), n;
      }
      var moving := Moving(s.action, look.listing.value, s.names);
      MovedGrows(s, w, n, moved, moving);
      moved := moved + set status | status in moving :: status.name;
      if look.interrupted {
        return Err(Interrupted), n;
      }
      if moving == [] {
        return Ok(Wait(look.listing.value, moved, Settled)), n;
      }
      if look.now >= deadline {
        return Ok(Wait(look.listing.value, moved, WaitEndAtDeadline(own, s.bound))), n;
      }
      n := n + 1;
    }
  }

  /** The report of the look the wait ended at, or the error that kept there from being one. */
  method Report(s: Settlement, w: World) returns (r: Result<ActionReport, ClientError>, last: nat)
    requires Ticks(w)
    ensures r.Ok? ==> Reports(s, w, last, r.value)
    ensures r.Err? ==> Fails(s, w, last, r.error)
  {
    hide EndsAt, HaveMoved, OutcomeOf, ReportedAs, Sorted, Since, About;
    var wait;
    wait, last := Await(s, w);
    if wait.Err? {
      return Err(wait.error), last;
    }
    if w.interruptedAtEnd {
      EndedFails(s, w, last, wait.value.ended, Interrupted);
      return Err(Interrupted), last;
    }
    var processes := ReportEach(s, wait.value.after, wait.value.moved);
    if w.notices.Err? {
      EndedFails(s, w, last, wait.value.ended, w.notices.error);
      return Err(w.notices.error), last;
    }
    EachReported(s, w, last, wait.value.after, wait.value.moved, processes);
    var recent := Since(w.notices.value, s.sent);
    r := Ok(ActionReport(s.action, processes, Sorted(recent, s.names, true), Sorted(recent, s.names, false),
                         wait.value.ended));
  }

  lemma {:induction false} EndedFails(s: Settlement, w: World, n: nat, end: WaitEnd, error: ClientError)
    requires EndsAt(s, w, n, end)
    requires if w.interruptedAtEnd then error == Interrupted else w.notices == Err(error)
    ensures Fails(s, w, n, error)
  {
    hide AnyMoving, Deadline, Own;
  }

  method ReportEach(s: Settlement, after: Listing, moved: set<string>) returns (processes: seq<ProcessOutcome>)
    ensures |processes| == |s.names|
    ensures forall i :: 0 <= i < |s.names| ==> processes[i] == OutcomeOf(s, after, moved, s.names[i])
  {
    processes := [];
    for i := 0 to |s.names|
      invariant |processes| == i
      invariant forall k :: 0 <= k < i ==> processes[k] == OutcomeOf(s, after, moved, s.names[k])
    {
      processes := processes + [OutcomeOf(s, after, moved, s.names[i])];
    }
  }

  function OutcomeOf(s: Settlement, after: Listing, moved: set<string>, name: string): ProcessOutcome {
    var now := Find(after, name);
    ProcessOutcome(name, Settle(s.action, Find(s.before, name), now, name in moved),
                   if now.Some? && !Halts(s.action) then now.value.blockedOn else None, now)
  }

  /** Whether the command fails: a process not as asked and not excused, or an error about one. */
  predicate Failed(report: ActionReport) {
    || (exists i :: 0 <= i < |report.processes| && Counts(report.waitEnded, report.processes[i].outcome))
    || (exists i :: 0 <= i < |report.notices| && report.notices[i].level.Error?)
  }

  predicate Counts(end: WaitEnd, outcome: Outcome) {
    IsFailure(outcome) && !(end.CutShort? && IsUnsettled(outcome))
  }

  /** Notices about these names count as the report's own from here on. */
  function Claiming(report: ActionReport, names: seq<string>): ActionReport {
    report.(notices := report.notices + Sorted(report.otherNotices, names, true),
            otherNotices := Sorted(report.otherNotices, names, false))
  }

  ghost function Before(s: Settlement, name: string): Option<ProcessStatus> {
    Find(s.before, name)
  }

  /** How the look that ended the wait listed a process. */
  ghost function Now(w: World, n: nat, name: string): Option<ProcessStatus>
    requires w.look(n).listing.Ok?
  {
    Find(w.look(n).listing.value, name)
  }

  /** A report whose wait settled tells of nothing still starting or stopping, and one of a removal
      only of processes that stopped or did not run. */
  lemma {:induction false} SettledReport(s: Settlement, w: World, n: nat, report: ActionReport, i: nat)
    requires Reports(s, w, n, report) && report.waitEnded.Settled? && i < |report.processes|
    ensures !IsUnsettled(report.processes[i].outcome)
    ensures s.action.Remove? ==> report.processes[i].outcome in {Outcome.Stopped, WasNotRunning}
  {
    hide Settle, SeenMoving, Settling, Find;
    var name := s.names[i];
    assert ReportedAs(s, w, n, name, report.processes[i]);
    assert name in s.names && !IsMoving(s.action, w.look(n).listing.value, name);
    SettledOutcome(s.action, Before(s, name), Now(w, n, name), SeenMoving(s, w, n + 1, name));
  }

  /** How long an action is waited for at most, by itself: a launch, a pause or a resume fifteen seconds;
      an action that stops every grace there is and five more; a restart both. */
  ghost predicate LongEnough(s: Settlement, time: nat) {
    match s.action
    case Down | Stop | Kill | Remove => AfterGraces(s, 5_000, time)
    case Restart => AfterGraces(s, 20_000, time)
    case _ => time >= 15_000
  }

  ghost predicate AfterGraces(s: Settlement, margin: nat, time: nat) {
    && time >= margin
    && forall name, grace: nat :: name in s.names && HasGrace(s.before, name, grace) ==> time >= grace + margin
  }

  /** A wait that timed out lasted as long as its action takes at most; one cut short as long as its
      bound, which is less; and neither looked again after the bound or that long. */
  lemma {:induction false} WaitLasts(s: Settlement, w: World, n: nat, report: ActionReport)
    requires Reports(s, w, n, report) && Ticks(w)
    ensures var waited := w.look(n).now - w.started;
            && (report.waitEnded.TimedOut? ==> LongEnough(s, waited))
            && (report.waitEnded.CutShort? ==> waited >= s.bound && !LongEnough(s, s.bound))
    ensures forall k: nat {:trigger w.look(k)} :: k < n ==>
      var waited := w.look(k).now - w.started; waited < s.bound && (waited >= 0 ==> !LongEnough(s, waited))
  {
    hide WaitedTo, ReportedAs, AnyMoving, Find, LongEnough, Sorted, Since, LongestGrace, SettleTimeout;
    OwnIsLongEnough(s);
    forall k: nat {:trigger w.look(k)} | k < n
      ensures var waited := w.look(k).now - w.started; waited < s.bound && (waited >= 0 ==> !LongEnough(s, waited))
    {
      assert w.look(k).now < Deadline(s, w) by { WaitedBefore(s, w, n, k); }
    }
  }

  lemma WaitedBefore(s: Settlement, w: World, n: nat, k: nat)
    requires WaitedTo(s, w, n) && k < n
    ensures w.look(k).now < Deadline(s, w)
  {
    assert w.look(k) == w.look(k);
  }

  lemma {:induction false} OwnIsLongEnough(s: Settlement)
    ensures forall time: nat :: LongEnough(s, time) <==> Own(s) <= time
  {
    hide Find;
    var longest := LongestGrace(s.before, s.names);
    forall margin: nat, time: nat ensures AfterGraces(s, margin, time) <==> longest + margin <= time {
      if longest > 0 {
        var name :| name in s.names && HasGrace(s.before, name, longest);
      }
    }
  }

  /** A report's own notices are exactly those since the request that name one of its processes, its
      others the rest of those since; each as often as raised. */
  lemma {:induction false} NoticesSplit(s: Settlement, w: World, n: nat, report: ActionReport, notice: Notice)
    requires Reports(s, w, n, report)
    ensures var raised := multiset(w.notices.value)[notice];
            var own := notice.process.Some? && notice.process.value in s.names;
            && multiset(report.notices)[notice] == (if notice.at >= s.sent && own then raised else 0)
            && multiset(report.otherNotices)[notice] == (if notice.at >= s.sent && !own then raised else 0)
  {
    hide EndsAt, ReportedAs, Sorted, Since;
    SinceCounts(w.notices.value, s.sent, notice);
    SortedCounts(Since(w.notices.value, s.sent), s.names, true, notice);
    SortedCounts(Since(w.notices.value, s.sent), s.names, false, notice);
  }

  lemma {:induction false} SinceCounts(notices: seq<Notice>, sent: nat, notice: Notice)
    ensures multiset(Since(notices, sent))[notice] == if notice.at >= sent then multiset(notices)[notice] else 0
  {
    if notices != [] {
      SinceCounts(notices[1..], sent, notice);
      assert notices == [notices[0]] + notices[1..];
    }
  }

  lemma {:induction false} SortedCounts(notices: seq<Notice>, names: seq<string>, about: bool, notice: Notice)
    ensures var own := notice.process.Some? && notice.process.value in names;
            multiset(Sorted(notices, names, about))[notice] == if own == about then multiset(notices)[notice] else 0
  {
    if notices != [] {
      SortedCounts(notices[1..], names, about, notice);
      assert notices == [notices[0]] + notices[1..];
    }
  }

  /** What a process waits for is shown unless it was to end. */
  lemma {:induction false} BlockShown(s: Settlement, w: World, n: nat, report: ActionReport, i: nat)
    requires Reports(s, w, n, report) && i < |report.processes|
    ensures var p := report.processes[i];
            && p.name == s.names[i] && p.status == Find(w.look(n).listing.value, s.names[i])
            && p.block == if s.action in ENDING || p.status.None? then None else p.status.value.blockedOn
  {
    hide WaitedTo, AnyMoving, Deadline, Own, Find, Settle, Sorted, Since;
    assert ReportedAs(s, w, n, s.names[i], report.processes[i]);
    assert Halts(s.action) <==> s.action in ENDING;
  }

  /** Whether a named process ended other than as asked, unless the wait was cut short under way. */
  ghost predicate FellShort(s: Settlement, w: World, n: nat, end: WaitEnd, name: string)
    requires w.look(n).listing.Ok?
  {
    && !AsAsked(s.action, Before(s, name), Now(w, n, name), SeenMoving(s, w, n + 1, name))
    && !(end.CutShort? && Underway(s.action, Before(s, name), Now(w, n, name)))
  }

  ghost predicate Alarms(s: Settlement, notice: Notice) {
    notice.at >= s.sent && About(s.names, notice) && notice.level.Error?
  }

  /** The command fails exactly when a named process fell short, or an error about one was raised
      since the request was sent. */
  lemma {:induction false} FailedExactlyWhen(s: Settlement, w: World, n: nat, report: ActionReport)
    requires Reports(s, w, n, report)
    ensures Failed(report) <==>
      || (exists name :: name in s.names && FellShort(s, w, n, report.waitEnded, name))
      || (exists notice :: notice in w.notices.value && Alarms(s, notice))
  {
    hide WaitedTo, AnyMoving, Deadline, Own, ReportedAs, FellShort, Counts, Sorted, Since, Alarms, About;
    NoticesAlarm(s, w.notices.value);
    forall i | 0 <= i < |s.names|
      ensures Counts(report.waitEnded, report.processes[i].outcome) <==>
        FellShort(s, w, n, report.waitEnded, s.names[i])
    {
      CountsExactlyWhen(s, w, n, report.waitEnded, s.names[i], report.processes[i]);
    }
    assert forall name :: name in s.names ==> exists i :: 0 <= i < |s.names| && s.names[i] == name;
  }

  lemma {:induction false} CountsExactlyWhen(s: Settlement, w: World, n: nat, end: WaitEnd, name: string,
          p: ProcessOutcome)
    requires w.look(n).listing.Ok? && ReportedAs(s, w, n, name, p)
    ensures Counts(end, p.outcome) <==> FellShort(s, w, n, end, name)
  {
    hide Settle, AsAsked, Underway, SeenMoving, Find;
    FailsExactlyWhen(s.action, Before(s, name), Now(w, n, name), SeenMoving(s, w, n + 1, name));
  }

  lemma {:induction false} NoticesAlarm(s: Settlement, notices: seq<Notice>)
    ensures var own := Sorted(Since(notices, s.sent), s.names, true);
            (exists i :: 0 <= i < |own| && own[i].level.Error?)
              <==> exists notice :: notice in notices && Alarms(s, notice)
  {
    hide Sorted, Since, About;
    var own := Sorted(Since(notices, s.sent), s.names, true);
    if i :| 0 <= i < |own| && own[i].level.Error? {
      OwnNotice(s, notices, own[i]);
      assert Alarms(s, own[i]);
    }
    if notice :| notice in notices && Alarms(s, notice) {
      OwnNotice(s, notices, notice);
      var i :| 0 <= i < |own| && own[i] == notice;
      assert own[i].level.Error?;
    }
  }

  lemma {:induction false} OwnNotice(s: Settlement, notices: seq<Notice>, notice: Notice)
    ensures notice in Sorted(Since(notices, s.sent), s.names, true)
       <==> notice in notices && notice.at >= s.sent && About(s.names, notice)
  {
    hide Sorted, Since, About;
    SortedHas(Since(notices, s.sent), s.names, true, notice);
    SinceHas(notices, s.sent, notice);
  }

  lemma {:induction false} SortedHas(notices: seq<Notice>, names: seq<string>, about: bool, notice: Notice)
    ensures notice in Sorted(notices, names, about) <==> notice in notices && About(names, notice) == about
  {
    if notices != [] {
      SortedHas(notices[1..], names, about, notice);
    }
  }

  lemma {:induction false} SinceHas(notices: seq<Notice>, sent: nat, notice: Notice)
    ensures notice in Since(notices, sent) <==> notice in notices && notice.at >= sent
  {
    if notices != [] {
      SinceHas(notices[1..], sent, notice);
    }
  }

  /** Of the processes in transition at the end of a wait cut short, exactly those count against the
      command whose removal had yet to begin stopping them. */
  lemma {:induction false} CutShortExcusesExactlyWhen(s: Settlement, w: World, n: nat, report: ActionReport, i: nat)
    requires Reports(s, w, n, report) && report.waitEnded.CutShort? && i < |report.processes|
    requires Now(w, n, s.names[i]).Some? && InTransition(s.action, Now(w, n, s.names[i]).value.state)
    ensures Counts(report.waitEnded, report.processes[i].outcome)
       <==> NotYetStopping(s.action, Before(s, s.names[i]), Now(w, n, s.names[i]))
  {
    hide WaitedTo, AnyMoving, Deadline, Own, Settle, SeenMoving, InTransition, Find, NotYetStopping, IsFailure,
         IsUnsettled;
    var name := s.names[i];
    assert ReportedAs(s, w, n, name, report.processes[i]);
    OnItsWayFailsExactlyWhen(s.action, Before(s, name), Now(w, n, name).value, SeenMoving(s, w, n + 1, name));
  }

  const WEB: ProcessStatus := ProcessStatus("web", Running, Some(7), Some(9000), 0, None, 0, None)
  const REMOVAL: Settlement := Settlement(Remove, [WEB], ["web"], 0, 0)
  const UNMOVED: World := World(0, (n: nat) => Look(Ok([WEB]), false, 50 * n), false, Ok([]))

  /** Cutting a removal short before the service has begun to stop the child fails the command, though
      the child is on its way. */
  lemma {:induction false} CutShortRemovalFails()
    ensures Ticks(UNMOVED)
    ensures exists report :: Reports(REMOVAL, UNMOVED, 0, report) && report.waitEnded.CutShort? && Failed(report)
  {
    var report := ActionReport(Remove, [ProcessOutcome("web", StillRunning, None, Some(WEB))], [], [], CutShort);
    assert UNMOVED.look(0) == Look(Ok([WEB]), false, 0);
    assert Find([WEB], "web") == Some(WEB);
    assert REMOVAL.names[0] == "web" && IsMoving(Remove, [WEB], "web");
    assert ReportedAs(REMOVAL, UNMOVED, 0, "web", report.processes[0]);
    assert Counts(CutShort, report.processes[0].outcome);
    assert Reports(REMOVAL, UNMOVED, 0, report);
  }

  /** Claiming the notices about more processes comes to having sorted by all the names at once: no
      notice is lost or repeated, and the context holds none about any of them. */
  lemma {:induction false} ClaimingSortsByAll(s: Settlement, w: World, n: nat, report: ActionReport, more: seq<string>)
    requires Reports(s, w, n, report)
    ensures var claimed := Claiming(report, more);
            var recent := Since(w.notices.value, s.sent);
            && claimed.otherNotices == Sorted(recent, s.names + more, false)
            && multiset(claimed.notices) == multiset(Sorted(recent, s.names + more, true))
  {
    hide EndsAt, ReportedAs, Sorted, Since;
    SortedTwice(Since(w.notices.value, s.sent), s.names, more);
  }

  lemma {:induction false} SortedTwice(notices: seq<Notice>, names: seq<string>, more: seq<string>)
    ensures Sorted(Sorted(notices, names, false), more, false) == Sorted(notices, names + more, false)
    ensures multiset(Sorted(notices, names, true) + Sorted(Sorted(notices, names, false), more, true))
         == multiset(Sorted(notices, names + more, true))
  {
    hide Sorted;
    if notices == [] {
      NoneSorted(names);
      NoneSorted(more);
      NoneSorted(names + more);
    } else {
      var first, rest := notices[0], notices[1..];
      SortedTwice(rest, names, more);
      var own, others := Sorted(rest, names, true), Sorted(rest, names, false);
      SortedNext(notices, names);
      SortedNext(notices, names + more);
      assert About(names + more, first) <==> About(names, first) || About(more, first);
      if !About(names, first) {
        var all := [first] + others;
        SortedNext(all, more);
        assert all[1..] == others;
        assert own + ([first] + Sorted(others, more, true)) == own + [first] + Sorted(others, more, true);
      } else {
        assert [first] + own + Sorted(others, more, true) == [first] + (own + Sorted(others, more, true));
      }
    }
  }

  lemma NoneSorted(names: seq<string>)
    ensures Sorted([], names, true) == [] && Sorted([], names, false) == []
  {
  }

  lemma SortedNext(notices: seq<Notice>, names: seq<string>)
    requires notices != []
    ensures var first, rest := notices[0], notices[1..];
            if About(names, first) then
              && Sorted(notices, names, true) == [first] + Sorted(rest, names, true)
              && Sorted(notices, names, false) == Sorted(rest, names, false)
            else
              && Sorted(notices, names, true) == Sorted(rest, names, true)
              && Sorted(notices, names, false) == [first] + Sorted(rest, names, false)
  {
  }
}

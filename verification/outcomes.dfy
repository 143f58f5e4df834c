/** What a command asks of processes, when one is still on its way, and what became of each. */
module Outcomes {
  import opened Basics
  import opened Processes

  datatype Action = Up | Down | Start | Stop | Restart | Pause | Resume | Kill | Run | Remove

  datatype ExitReason = Exited | Crashed | Killed | Stopped | FailedToStart

  /** What a listing shows of one process; times in milliseconds. */
  datatype ProcessStatus = ProcessStatus(name: string, state: ProcessState, pid: Option<nat>, uptime: Option<nat>,
                                         restarts: nat, lastExit: Option<ExitReason>, stopGrace: nat,
                                         blockedOn: Option<string>)

  datatype Outcome = Started | Restarted | AlreadyRunning | Exited | Crashed | Unsupervised
    | StillStarting | NotStarted | Stopped | WasNotRunning | StillStopping | StillRunning | Paused
    | AlreadyPaused | Resumed | Unchanged | Refused | Gone

  const QUICK_EXIT_WINDOW: nat := 500
  const LAUNCH_SETTLE_TIMEOUT: nat := 15_000
  const STOP_SETTLE_MARGIN: nat := 5_000
  const SUSPEND_SETTLE_TIMEOUT: nat := 15_000

  predicate IsActive(state: ProcessState) {
    state.Starting? || state.Running? || state.Paused? || state.Stopping? || state.Restarting?
  }

  predicate MayBeRunning(state: ProcessState) {
    IsActive(state) || state.Unsupervised?
  }

  predicate InQuickExitWindow(status: ProcessStatus) {
    status.state.Running? && status.uptime.Some? && status.uptime.value < QUICK_EXIT_WINDOW
  }

  predicate Halts(action: Action) {
    action.Down? || action.Stop? || action.Kill? || action.Remove?
  }

  predicate Launches(action: Action) {
    action.Up? || action.Start? || action.Restart? || action.Run?
  }

  /** The states an action waits out. */
  predicate InTransition(action: Action, state: ProcessState) {
    match state
    case Starting => true
    case Stopping => Halts(action) || action.Restart?
    case Running | Paused | Restarting | Unsupervised => action.Remove?
    case Pending | Exited | Crashed | Blocked => false
  }

  predicate Settling(action: Action, status: ProcessStatus) {
    InTransition(action, status.state) || (Launches(action) && InQuickExitWindow(status))
  }

  function SettleTimeout(action: Action, stopGrace: nat): nat {
    var stop := stopGrace + STOP_SETTLE_MARGIN;
    if action.Restart? then stop + LAUNCH_SETTLE_TIMEOUT
    else if Halts(action) then stop
    else if Launches(action) then LAUNCH_SETTLE_TIMEOUT
    else SUSPEND_SETTLE_TIMEOUT
  }

  function StateOf(status: Option<ProcessStatus>): Option<ProcessState> {
    if status.Some? then Some(status.value.state) else None
  }

  /** The outcome reported for a process, from its listing at the request and its listing at the end. */
  function Settle(action: Action, before: Option<ProcessStatus>, after: Option<ProcessStatus>, sawTransition: bool)
    : Outcome
  {
    var was := StateOf(before);
    if Halts(action) then Halted(was, StateOf(after))
    else if after.None? then Gone
    else
      var state := after.value.state;
      if InTransition(action, state) then Unsettled(state)
      else if action.Pause? then PausedNow(was, state)
      else if action.Resume? then ResumedNow(was, state)
      else Launched(action, before, after.value, sawTransition)
  }

  function Unsettled(state: ProcessState): Outcome {
    if state.Stopping? then StillStopping else if state.Blocked? then NotStarted else StillStarting
  }

  function Halted(was: Option<ProcessState>, now: Option<ProcessState>): Outcome {
    if was.None? || !MayBeRunning(was.value) then WasNotRunning
    else if now.None? then Outcome.Stopped
    else
      match now.value
      case Starting | Stopping => StillStopping
      case Running | Paused | Restarting | Unsupervised => StillRunning
      case Pending | Exited | Crashed | Blocked => Outcome.Stopped
  }

  function PausedNow(was: Option<ProcessState>, state: ProcessState): Outcome {
    if !state.Paused? then Unchanged
    else if was == Some(ProcessState.Paused) then AlreadyPaused else Outcome.Paused
  }

  function ResumedNow(was: Option<ProcessState>, state: ProcessState): Outcome {
    if !state.Running? then Unchanged
    else if was == Some(ProcessState.Running) then AlreadyRunning else Resumed
  }

  /** Whether the child running before is the one listed now. */
  predicate SameChild(before: Option<ProcessStatus>, after: ProcessStatus) {
    before.Some? && before.value.pid.Some? && before.value.pid == after.pid && IsActive(before.value.state)
  }

  /** Whether anything shows that the action did something. */
  predicate Changed(before: Option<ProcessStatus>, after: ProcessStatus, sawTransition: bool) {
    || sawTransition
    || before.None?
    || before.value.state != after.state
    || before.value.pid != after.pid
    || before.value.restarts != after.restarts
  }

  predicate ExitedCleanly(status: ProcessStatus) {
    status.lastExit == Some(ExitReason.Exited)
  }

  function Launched(action: Action, before: Option<ProcessStatus>, after: ProcessStatus, sawTransition: bool): Outcome {
    match after.state
    case Running | Paused =>
      if SameChild(before, after) then if action.Restart? then StillRunning else AlreadyRunning
      else if action.Restart? then Restarted else Started
    case Unsupervised => Outcome.Unsupervised
    case Blocked => NotStarted
    case Pending | Starting | Stopping => NotStarted
    case Exited => if Changed(before, after, sawTransition) then Outcome.Exited else NotStarted
    case Crashed => if Changed(before, after, sawTransition) then Outcome.Crashed else NotStarted
    case Restarting =>
      if !Changed(before, after, sawTransition) then NotStarted
      else if ExitedCleanly(after) then Outcome.Exited else Outcome.Crashed
  }

  predicate IsFailure(outcome: Outcome) {
    match outcome
    case Crashed | Unsupervised | StillStarting | NotStarted | StillStopping | StillRunning | Unchanged
         | Refused | Gone => true
    case Started | Restarted | AlreadyRunning | Exited | Stopped | WasNotRunning | Paused
         | AlreadyPaused | Resumed => false
  }

  predicate IsUnsettled(outcome: Outcome) {
    outcome.StillStarting? || outcome.StillStopping?
  }

  /** What an action asks for: nothing left running, a suspended child, a running one, or a launch
      that left a child of its own running or run to a clean end. */
  predicate AsAsked(action: Action, before: Option<ProcessStatus>, after: Option<ProcessStatus>, sawTransition: bool) {
    if Halts(action) then
      !(before.Some? && MayBeRunning(before.value.state) && after.Some? && MayBeRunning(after.value.state))
    else
      && after.Some?
      && (action.Pause? ==> after.value.state.Paused?)
      && (action.Resume? ==> after.value.state.Running?)
      && (Launches(action) ==> || Alive(action, before, after.value)
                               || (RanCleanly(after.value) && Changed(before, after.value, sawTransition)))
  }

  predicate Alive(action: Action, before: Option<ProcessStatus>, after: ProcessStatus) {
    (after.state.Running? || after.state.Paused?) && (action.Restart? ==> !SameChild(before, after))
  }

  predicate RanCleanly(after: ProcessStatus) {
    after.state.Exited? || (after.state.Restarting? && ExitedCleanly(after))
  }

  /** A process between two states, as a report that was cut short excuses it. */
  predicate Underway(action: Action, before: Option<ProcessStatus>, after: Option<ProcessStatus>) {
    && after.Some?
    && InTransition(action, after.value.state)
    && (after.value.state.Starting? || after.value.state.Stopping?)
    && (Halts(action) ==> before.Some? && MayBeRunning(before.value.state))
  }

  /** A removed child that no stop has reached yet: on its way, and still running. */
  predicate NotYetStopping(action: Action, before: Option<ProcessStatus>, after: Option<ProcessStatus>) {
    && action.Remove?
    && before.Some? && MayBeRunning(before.value.state)
    && after.Some? && MayBeRunning(after.value.state) && !after.value.state.Starting? && !after.value.state.Stopping?
  }

  /** An outcome is a failure exactly when the process is not as the action asked. */
  lemma {:induction false} FailsExactlyWhen(action: Action, before: Option<ProcessStatus>,
          after: Option<ProcessStatus>, sawTransition: bool)
    ensures IsFailure(Settle(action, before, after, sawTransition)) <==> !AsAsked(action, before, after, sawTransition)
    ensures IsUnsettled(Settle(action, before, after, sawTransition)) <==> Underway(action, before, after)
  {
    hide Changed, SameChild, ExitedCleanly;
  }

  /** Which success it was: a launch tells a new child from the one there before, a stop one that
      ended from one that never ran, a pause or resume whether it was so already. */
  lemma {:induction false} SuccessSaysWhich(action: Action, before: Option<ProcessStatus>,
          after: Option<ProcessStatus>, sawTransition: bool)
    ensures var outcome, alive := Settle(action, before, after, sawTransition),
                                  after.Some? && (after.value.state.Running? || after.value.state.Paused?);
            && (outcome.Started? || outcome.Restarted? <==>
                  Launches(action) && alive && !SameChild(before, after.value))
            && (outcome.Restarted? ==> action.Restart?) && (outcome.Started? ==> !action.Restart?)
            && (Launches(action) ==>
                  (outcome.AlreadyRunning? <==> !action.Restart? && alive && SameChild(before, after.value)))
            && (action.Resume? ==> (outcome.AlreadyRunning? ==> before.Some? && before.value.state.Running?)
                                   && (outcome.Resumed? ==> before.None? || !before.value.state.Running?))
            && (action.Pause? ==> (outcome.AlreadyPaused? ==> before.Some? && before.value.state.Paused?)
                                  && (outcome.Paused? ==> before.None? || !before.value.state.Paused?))
            && (Halts(action) ==> (outcome.WasNotRunning? <==> before.None? || !MayBeRunning(before.value.state)))
            && (outcome.Exited? ==> Launches(action) && RanCleanly(after.value))
  {
    hide Changed, SameChild, ExitedCleanly;
  }

  /** The actions that end a process, and those that launch one. */
  const ENDING: set<Action> := {Down, Stop, Kill, Remove}
  const LAUNCHING: set<Action> := {Up, Start, Restart, Run}

  /** Where there is no child. */
  const AT_REST: set<ProcessState> :=
    {ProcessState.Pending, ProcessState.Exited, ProcessState.Crashed, ProcessState.Blocked}

  /** A child listed before and now with one pid, in a state in which it is the service's own. */
  predicate StillTheSame(before: Option<ProcessStatus>, after: ProcessStatus) {
    && before.Some? && before.value.pid.Some? && after.pid == before.value.pid
    && before.value.state !in AT_REST && before.value.state != ProcessState.Unsupervised
  }

  /** Nothing shows that anything happened. */
  predicate Untouched(before: Option<ProcessStatus>, after: ProcessStatus, sawTransition: bool) {
    && !sawTransition && before.Some? && before.value.state == after.state
    && before.value.pid == after.pid && before.value.restarts == after.restarts
  }

  /** Which outcome an action that ends processes has, for every listing before and after. */
  lemma {:induction false} EndingSaysWhich(action: Action, before: Option<ProcessStatus>, after: Option<ProcessStatus>,
          sawTransition: bool)
    requires action in ENDING
    ensures var ran := before.Some? && before.value.state !in AT_REST;
            var outcome := Settle(action, before, after, sawTransition);
            && (outcome == WasNotRunning <==> !ran)
            && (outcome == Outcome.Stopped <==> ran && (after.None? || after.value.state in AT_REST))
            && (outcome == StillStopping <==>
                  ran && after.Some? && after.value.state in {ProcessState.Starting, ProcessState.Stopping})
            && (outcome == StillRunning <==>
                  ran && after.Some? && after.value.state !in AT_REST + {ProcessState.Starting, ProcessState.Stopping})
            && outcome in {WasNotRunning, Outcome.Stopped, StillStopping, StillRunning}
  {
  }

  /** Which outcome a pause or a resume has. */
  lemma {:induction false} SuspendingSaysWhich(action: Action, before: Option<ProcessStatus>,
          after: Option<ProcessStatus>, sawTransition: bool)
    requires action in {Pause, Resume}
    ensures var asked := if action == Pause then ProcessState.Paused else ProcessState.Running;
            Settle(action, before, after, sawTransition) ==
              if after.None? then Gone
              else if after.value.state == ProcessState.Starting then StillStarting
              else if after.value.state != asked then Unchanged
              else if before.Some? && before.value.state == asked
              then if action == Pause then AlreadyPaused else AlreadyRunning
              else if action == Pause then Outcome.Paused else Resumed
  {
  }

  /** Which outcome a launch has: what became of the child it was to leave. */
  lemma {:induction false} LaunchSaysWhich(action: Action, before: Option<ProcessStatus>,
          after: Option<ProcessStatus>, sawTransition: bool)
    requires action in LAUNCHING
    ensures var outcome := Settle(action, before, after, sawTransition);
            && (outcome == Gone <==> after.None?)
            && (after.Some? ==>
                  var now := after.value;
                  var alive := now.state in {ProcessState.Running, ProcessState.Paused};
                  var same, untouched := StillTheSame(before, now), Untouched(before, now, sawTransition);
                  var clean := now.lastExit == Some(ExitReason.Exited);
                  && (outcome == StillStarting <==> now.state == ProcessState.Starting)
                  && (outcome == StillStopping <==> action == Restart && now.state == ProcessState.Stopping)
                  && (outcome == Started <==> alive && !same && action != Restart)
                  && (outcome == Restarted <==> alive && !same && action == Restart)
                  && (outcome == AlreadyRunning <==> alive && same && action != Restart)
                  && (outcome == StillRunning <==> alive && same && action == Restart)
                  && (outcome == Outcome.Unsupervised <==> now.state == ProcessState.Unsupervised)
                  && (outcome == Outcome.Exited <==>
                        && !untouched
                        && (now.state == ProcessState.Exited || (now.state == ProcessState.Restarting && clean)))
                  && (outcome == Outcome.Crashed <==>
                        && !untouched
                        && (now.state == ProcessState.Crashed || (now.state == ProcessState.Restarting && !clean)))
                  && (outcome == NotStarted <==>
                        || now.state in {ProcessState.Pending, ProcessState.Blocked}
                        || (now.state == ProcessState.Stopping && action != Restart)
                        || (&& untouched
                            && now.state in {ProcessState.Exited, ProcessState.Crashed, ProcessState.Restarting})))
  {
    if after.Some? {
      LaunchSigns(before, after.value, sawTransition);
    }
    hide Changed, SameChild, StillTheSame, Untouched;
  }

  lemma LaunchSigns(before: Option<ProcessStatus>, after: ProcessStatus, sawTransition: bool)
    ensures SameChild(before, after) <==> StillTheSame(before, after)
    ensures Changed(before, after, sawTransition) <==> !Untouched(before, after, sawTransition)
  {
  }

  /** What is waited out: a start by all, a stop by those that end or restart a process, all but rest by
      a removal; and by a launch the first half second of a child. */
  lemma {:induction false} WaitedOut(action: Action, status: ProcessStatus)
    ensures Settling(action, status) <==>
      || status.state == ProcessState.Starting
      || (status.state == ProcessState.Stopping && action in ENDING + {Restart})
      || (action == Remove && status.state !in AT_REST)
      || (&& action in LAUNCHING && status.state == ProcessState.Running
          && status.uptime.Some? && status.uptime.value < 500)
  {
  }

  /** A process that is no longer settling is reported neither as starting nor as stopping, and a
      removed one only as ended or as never having run. */
  lemma {:induction false} SettledOutcome(action: Action, before: Option<ProcessStatus>, after: Option<ProcessStatus>,
          sawTransition: bool)
    requires after.Some? ==> !Settling(action, after.value)
    ensures var outcome := Settle(action, before, after, sawTransition);
            !IsUnsettled(outcome) && (action.Remove? ==> outcome.Stopped? || outcome.WasNotRunning?)
  {
    hide Changed, SameChild, ExitedCleanly;
  }

  /**
   A process on its way fails for a reason other than being on its way exactly when its removal has
   not begun to stop it; then it is reported neither ended, nor still stopping, nor as not having run.
   */
  lemma {:induction false} OnItsWayFailsExactlyWhen(action: Action, before: Option<ProcessStatus>,
          after: ProcessStatus, sawTransition: bool)
    requires InTransition(action, after.state)
    ensures var outcome := Settle(action, before, Some(after), sawTransition);
            (IsFailure(outcome) && !IsUnsettled(outcome) <==> NotYetStopping(action, before, Some(after)))
            && (action.Remove? ==>
                  (outcome.Stopped? || outcome.StillStopping? || outcome.WasNotRunning?
                   <==> !NotYetStopping(action, before, Some(after))))
  {
    hide Changed, SameChild, ExitedCleanly;
  }
}

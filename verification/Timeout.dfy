/**
 The session timeout of a lambda: a timer, a one-slot reset mailbox, a busy count and a
 disabled flag, shared by the loop that watches the timer and the request handlers.
 Durations are nanoseconds since the start of the session.
 */
module Timeout {
  import opened Basics

  const TICK: int := 100_000_000
  const MILLISECOND: int := 1_000_000

  // ---- tick rounding --------------------------------------------------------------

  function CeilTick(x: int): (k: int)
    ensures (k - 1) * TICK < x <= k * TICK
  {
    (x + TICK - 1) / TICK
  }

  /** `getTimeout`: the timer duration and the moment it is due, for an extension asked for at `now`. */
  function Due(now: nat, ext: int, tickError: nat): int {
    if ext < 0 then now + MILLISECOND else CeilTick(now + ext) * TICK - tickError
  }

  function Duration(now: nat, ext: int, tickError: nat): int {
    Due(now, ext, tickError) - now
  }

  /** Due plus the tick error is the least multiple of a tick that is not before now + ext. */
  lemma DueIsLeast(now: nat, ext: int, tickError: nat, k: int)
    requires ext >= 0 && k * TICK >= now + ext
    ensures exists j :: Due(now, ext, tickError) + tickError == j * TICK
    ensures now + ext <= Due(now, ext, tickError) + tickError <= k * TICK
  {
  }

  /** The timer runs for at least the extension minus the tick error, and for less than a tick more. */
  lemma DurationBounds(now: nat, ext: int, tickError: nat)
    requires ext >= 0
    ensures ext - tickError <= Duration(now, ext, tickError) < ext + TICK - tickError
    ensures ext >= tickError ==> Due(now, ext, tickError) >= now
  {
  }

  /** A later request, or a longer extension, is never due earlier. */
  lemma DueMonotone(now: nat, later: nat, ext: int, longer: int, tickError: nat)
    requires now <= later && (ext < 0 <==> longer < 0) && ext <= longer
    ensures Due(now, ext, tickError) <= Due(later, longer, tickError)
  {
  }

  /**
   A negative extension stands for a millisecond. One that is not negative is never due earlier than
   that if and only if it is at least a millisecond and the tick error.
   */
  lemma DueAcrossSignsIff(ext: int, longer: int, tickError: nat)
    requires ext < 0 <= longer
    ensures (forall now: nat, later: nat | now <= later :: Due(now, ext, tickError) <= Due(later, longer, tickError))
       <==> longer >= MILLISECOND + tickError
  {
    if longer < MILLISECOND + tickError {
      var now := CeilTick(longer) * TICK - longer;
      assert CeilTick(now + longer) == CeilTick(longer);
      assert Due(now, longer, tickError) < Due(now, ext, tickError);
    }
  }

  /** No extension, asked for a second into the session, is due before a negative one. */
  lemma ZeroBeforeNegative(tickError: nat)
    ensures Due(1000 * MILLISECOND, 0, tickError) < Due(1000 * MILLISECOND, -1, tickError)
  {
    assert CeilTick(1000 * MILLISECOND) == 10;
  }

  // ---- the state machine ----------------------------------------------------------

  datatype Timer = Armed | Fired | Idle

  /**
   The shared state. `holding`: the watching loop has received a tick and not yet decided on it.
   `restarting`: restarts that have enabled the timeout and not yet reset it. `posted` and
   `promise`: when the latest reset was granted, and when it said the session would be due.
   `signals`: how often the timeout has been signalled.
   */
  datatype State = State(
    now: nat, timer: Timer, reset: Option<int>, hasReset: bool, due: int, lastExtension: int,
    active: int, disabled: bool, timeout: bool, c: Option<nat>, done: bool, exited: bool,
    holding: bool, restarting: nat, posted: nat, promise: int, signals: nat)

  datatype Step =
    | Wait(d: nat)
    | Fire
    | LoopReset
    | LoopTick
    | LoopDecide
    | LoopExit
    | Extend(ext: int)
    | Reset
    | Disable
    | Stop
    | Enable
    | RestartReset
    | Busy
    | DoneBusy
    | Finish
    | Receive

  /** `resetLocked`: posts the last extension, replacing an unread one. */
  function Posted(s: State, tickError: nat): State {
    var due := Due(s.now, s.lastExtension, tickError);
    s.(due := due, reset := Some(s.lastExtension), hasReset := true, posted := s.now, promise := due)
  }

  predicate Grants(s: State) {
    !s.timeout && !s.disabled && !s.done
  }

  /** `Reset`: posts the last extension if it may. */
  function Renewed(s: State, tickError: nat): State {
    if Grants(s) then Posted(s, tickError) else s
  }

  /** The decision of the loop on a tick, under the session lock. */
  function Decided(s: State, tickError: nat): State {
    var s1 := s.(holding := false);
    if s.hasReset || s.disabled then s1
    else if s.active > 0 || s.now < s.due then Posted(s1, tickError)
    else s1.(c := Some(s.now), timeout := true, signals := s.signals + 1)
  }

  /** The loop is at its select statement and has not returned; a ready case may win over the end of the session. */
  predicate Selecting(s: State) {
    !s.holding && !s.exited
  }

  predicate Enabled(s: State, step: Step) {
    match step
    case Fire => s.timer.Armed?
    case LoopReset => Selecting(s) && s.reset.Some?
    case LoopTick => Selecting(s) && s.timer.Fired?
    case LoopDecide => s.holding
    case LoopExit => Selecting(s) && s.done
    case RestartReset => s.restarting > 0
    case _ => true
  }

  function Next(s: State, step: Step, tickError: nat): State
    requires Enabled(s, step)
  {
    match step
    case Wait(d) => s.(now := s.now + d)
    case Fire => s.(timer := Fired)
    case LoopReset =>
      s.(due := Due(s.now, s.reset.value, tickError), timer := Armed, hasReset := false, reset := None)
    case LoopTick => s.(timer := Idle, c := None, holding := true)
    case LoopDecide => Decided(s, tickError)
    case LoopExit => s.(exited := true)
    case Extend(ext) => s.(lastExtension := ext)
    case Reset => Renewed(s, tickError)
    case Disable => s.(disabled := true)
    case Stop => s.(timer := Idle)
    case Enable => s.(disabled := false, restarting := s.restarting + 1)
    case RestartReset => Renewed(s, tickError).(restarting := s.restarting - 1)
    case Busy => s.(active := s.active + 1)
    case DoneBusy => s.(active := s.active - 1)
    case Finish => s.(done := true)
    case Receive => s.(c := None)
  }

  /** `NewTimeout` at the given moment. */
  function Init(now: nat, ext: int, tickError: nat): State {
    var due := Due(now, ext, tickError);
    State(now, Armed, None, false, due, ext, 0, false, false, None, false, false, false, 0, now, due, 0)
  }

  /** While the session is enabled, not done and not timed out, something will wake the loop. */
  predicate Awaited(s: State) {
    Grants(s) ==> !s.timer.Idle? || s.reset.Some? || s.holding || s.restarting > 0
  }

  /** What every step keeps, in any order. */
  predicate Core(s: State, tickError: nat) {
    && (s.hasReset <==> s.reset.Some?)
    && (s.holding ==> s.timer.Idle? && s.c.None? && !s.timeout)
    && (s.timeout ==> s.timer.Idle? && s.reset.None?)
    && s.signals == (if s.timeout then 1 else 0)
    && (s.c.Some? ==> s.timeout)
    && (s.exited ==> s.done)
    && s.posted <= s.now && s.promise <= s.due
    && (s.reset.Some? ==> s.promise == Due(s.posted, s.reset.value, tickError))
  }

  predicate Inv(s: State, tickError: nat) {
    Core(s, tickError) && Awaited(s)
  }

  predicate OfLoop(step: Step) {
    step.LoopReset? || step.LoopTick? || step.LoopDecide? || step.LoopExit?
  }

  lemma LoopStepCore(s: State, step: Step, tickError: nat)
    requires Core(s, tickError) && Enabled(s, step) && OfLoop(step)
    ensures Core(Next(s, step, tickError), tickError)
  {
    if step.LoopReset? {
      DueMonotone(s.posted, s.now, s.reset.value, s.reset.value, tickError);
    }
  }

  lemma ResetStepCore(s: State, step: Step, tickError: nat)
    requires Core(s, tickError) && Enabled(s, step) && (step.Reset? || step.RestartReset?)
    ensures Core(Next(s, step, tickError), tickError)
  {
  }

  lemma OtherStepCore(s: State, step: Step, tickError: nat)
    requires Core(s, tickError) && Enabled(s, step) && !OfLoop(step) && !step.Reset? && !step.RestartReset?
    ensures Core(Next(s, step, tickError), tickError)
  {
  }

  /** Every step keeps the core of the invariant, whatever runs beside it. */
  lemma StepCore(s: State, step: Step, tickError: nat)
    requires Core(s, tickError) && Enabled(s, step)
    ensures Core(Next(s, step, tickError), tickError)
  {
    if OfLoop(step) {
      LoopStepCore(s, step, tickError);
    } else if step.Reset? || step.RestartReset? {
      ResetStepCore(s, step, tickError);
    } else {
      OtherStepCore(s, step, tickError);
    }
  }

  /** Stopping the timer takes nothing away that the loop is waiting for. */
  predicate Harmless(s: State, step: Step) {
    step.Stop? ==> !Grants(s) || s.timer.Idle? || s.reset.Some? || s.holding || s.restarting > 0
  }

  /** The only step that loses a wake-up is a stop of the timer the enabled session depends on. */
  lemma StepAwaitedIff(s: State, step: Step, tickError: nat)
    requires Inv(s, tickError) && Enabled(s, step)
    ensures Awaited(Next(s, step, tickError)) <==> Harmless(s, step)
  {
  }

  lemma StepInv(s: State, step: Step, tickError: nat)
    requires Inv(s, tickError) && Enabled(s, step)
    ensures Inv(Next(s, step, tickError), tickError) <==> Harmless(s, step)
  {
    StepCore(s, step, tickError);
    StepAwaitedIff(s, step, tickError);
  }

  /** Once the wake-up is lost, the timer and the loop have nothing left to do until a reset or the end. */
  lemma LostStays(s: State, step: Step, tickError: nat)
    requires !Awaited(s) && Enabled(s, step)
    ensures !OfLoop(step) && !step.Fire?
    ensures step.Reset? || step.Disable? || step.Enable? || step.Finish? || !Awaited(Next(s, step, tickError))
  {
  }

  ghost predicate IsRun(trace: seq<State>, steps: seq<Step>, tickError: nat) {
    && |trace| == |steps| + 1
    && (exists now, ext :: trace[0] == Init(now, ext, tickError))
    && forall i :: 0 <= i < |steps| ==>
         Enabled(trace[i], steps[i]) && trace[i + 1] == Next(trace[i], steps[i], tickError)
  }

  /** The core of the invariant holds in every state of every run. */
  lemma {:induction false} RunCore(trace: seq<State>, steps: seq<Step>, tickError: nat, i: nat)
    requires IsRun(trace, steps, tickError) && i <= |steps|
    ensures Core(trace[i], tickError)
  {
    if i > 0 {
      RunCore(trace, steps, tickError, i - 1);
      StepCore(trace[i - 1], steps[i - 1], tickError);
    }
  }

  ghost predicate HarmlessUpTo(trace: seq<State>, steps: seq<Step>, i: nat)
    requires i <= |steps| < |trace|
  {
    forall j :: 0 <= j < i ==> Harmless(trace[j], steps[j])
  }

  ghost predicate AwaitedUpTo(trace: seq<State>, i: nat)
    requires i < |trace|
  {
    forall j :: 0 <= j <= i ==> Awaited(trace[j])
  }

  /** In any run a wake-up is under way in every state up to i if and only if every stop before i was harmless. */
  lemma RunAwaitedIff(trace: seq<State>, steps: seq<Step>, tickError: nat, i: nat)
    requires IsRun(trace, steps, tickError) && i <= |steps|
    ensures AwaitedUpTo(trace, i) <==> HarmlessUpTo(trace, steps, i)
  {
    var holds := seq(|trace|, j requires 0 <= j < |trace| => Awaited(trace[j]));
    var good := seq(|steps|, j requires 0 <= j < |steps| => Harmless(trace[j], steps[j]));
    forall j | 0 <= j < |steps| && holds[j] ensures holds[j + 1] == good[j] {
      RunCore(trace, steps, tickError, j);
      StepAwaitedIff(trace[j], steps[j], tickError);
    }
    HoldsUpTo(holds, good, i);
    if UpTo(holds, i + 1) {
      assert forall j :: 0 <= j <= i ==> holds[j] == Awaited(trace[j]);
      assert forall j :: 0 <= j < i ==> good[j] == Harmless(trace[j], steps[j]);
    } else {
      var j :| 0 <= j <= i && !holds[j];
      assert !Awaited(trace[j]);
      var k :| 0 <= k < i && !good[k];
      assert !Harmless(trace[k], steps[k]);
    }
  }

  /** Halt and restart do not overlap: the timer is only stopped while the timeout is disabled. */
  ghost predicate Separate(trace: seq<State>, steps: seq<Step>)
    requires |steps| < |trace|
  {
    forall i :: 0 <= i < |steps| && steps[i].Stop? ==> trace[i].disabled
  }

  /** No lost wake-up, when halts and restarts do not overlap. */
  lemma NoLostWakeUp(trace: seq<State>, steps: seq<Step>, tickError: nat, i: nat)
    requires IsRun(trace, steps, tickError) && i <= |steps| && Separate(trace, steps)
    ensures Awaited(trace[i])
  {
    RunAwaitedIff(trace, steps, tickError, i);
    assert HarmlessUpTo(trace, steps, i);
  }

  /** At most one signal in any run, and it never waits for room in its channel. */
  lemma OneSignal(trace: seq<State>, steps: seq<Step>, tickError: nat, i: nat)
    requires IsRun(trace, steps, tickError) && i <= |steps|
    ensures trace[i].signals <= 1
    ensures i < |steps| && steps[i].LoopDecide? ==> trace[i].c.None?
  {
    RunCore(trace, steps, tickError, i);
  }

  /**
   A halt that is overtaken by a restart: the timer that the restart armed is stopped, and the
   session is left enabled with nothing to time it out.
   */
  lemma HaltOvertaken(now: nat, ext: int, again: int, tickError: nat) returns (trace: seq<State>, steps: seq<Step>)
    ensures IsRun(trace, steps, tickError) && trace[0] == Init(now, ext, tickError)
    ensures steps == [Disable, Enable, Extend(again), RestartReset, LoopReset, Stop]
    ensures Grants(trace[6]) && trace[6].timer.Idle? && trace[6].reset.None? && !Awaited(trace[6])
  {
    var s0 := Init(now, ext, tickError);
    var s1 := Next(s0, Disable, tickError);
    var s2 := Next(s1, Enable, tickError);
    var s3 := Next(s2, Extend(again), tickError);
    var s4 := Next(s3, RestartReset, tickError);
    var s5 := Next(s4, LoopReset, tickError);
    trace := [s0, s1, s2, s3, s4, s5, Next(s5, Stop, tickError)];
    steps := [Disable, Enable, Extend(again), RestartReset, LoopReset, Stop];
  }

  /** A reset that is overtaken by another one is granted the extension of the other. */
  lemma ResetOvertaken(s: State, ext: int, other: int, tickError: nat)
    requires Grants(s)
    ensures var t := Next(Next(Next(s, Extend(ext), tickError), Extend(other), tickError), Reset, tickError);
            t.reset == Some(other) && t.promise == Due(s.now, other, tickError)
  {
  }

  /** After the signal no reset is granted and the timer is never armed again. */
  lemma TimeoutIsFinal(trace: seq<State>, steps: seq<Step>, tickError: nat, i: nat, j: nat)
    requires IsRun(trace, steps, tickError) && i <= j <= |steps| && trace[i].timeout
    ensures trace[j].timeout && trace[j].timer.Idle? && trace[j].reset.None? && !Grants(trace[j])
    ensures trace[j].signals == 1
  {
    TimeoutLasts(trace, steps, tickError, i, j);
    RunCore(trace, steps, tickError, j);
  }

  lemma {:induction false} TimeoutLasts(trace: seq<State>, steps: seq<Step>, tickError: nat, i: nat, j: nat)
    requires IsRun(trace, steps, tickError) && i <= j <= |steps| && trace[i].timeout
    ensures trace[j].timeout
    decreases j - i
  {
    if i < j {
      TimeoutLasts(trace, steps, tickError, i, j - 1);
      TimeoutStaysAt(trace, steps, tickError, j - 1);
    }
  }

  lemma TimeoutStaysAt(trace: seq<State>, steps: seq<Step>, tickError: nat, i: nat)
    requires IsRun(trace, steps, tickError) && i < |steps| && trace[i].timeout
    ensures trace[i + 1].timeout
  {
    RunCore(trace, steps, tickError, i);
    TimeoutStays(trace[i], steps[i], tickError);
  }

  lemma TimeoutStays(s: State, step: Step, tickError: nat)
    requires Core(s, tickError) && Enabled(s, step) && s.timeout
    ensures Next(s, step, tickError).timeout
  {
  }

  /** The session times out only when idle, enabled, with no reset unread, and not before the latest promise. */
  lemma NotBeforePromise(trace: seq<State>, steps: seq<Step>, tickError: nat, i: nat)
    requires IsRun(trace, steps, tickError) && i < |steps| && !trace[i].timeout && trace[i + 1].timeout
    ensures trace[i].now >= trace[i].due >= trace[i].promise
    ensures trace[i].active <= 0 && !trace[i].disabled && trace[i].reset.None?
  {
    RunCore(trace, steps, tickError, i);
    assert trace[i + 1] == Next(trace[i], steps[i], tickError);
  }

  /** A tick that was taken ends in the timeout exactly if the session is idle, enabled, due and not being reset. */
  predicate Expires(s: State) {
    s.holding && s.reset.None? && !s.disabled && s.active <= 0 && s.now >= s.due
  }

  /**
   The decision on a tick: the signal is given, once, if the session expires; the session is reset by
   its last extension if it is busy or not yet due; nothing happens if it is disabled or being reset.
   */
  lemma DecideEffect(s: State, tickError: nat)
    requires Core(s, tickError) && s.holding
    ensures var t := Next(s, LoopDecide, tickError);
            && (t.timeout <==> Expires(s)) && !t.holding
            && (Expires(s) ==> t.c == Some(s.now) && t.signals == s.signals + 1 == 1 && t.reset.None?)
            && (!Expires(s) ==> t.c == s.c && t.signals == s.signals == 0)
            && (s.disabled || s.reset.Some? ==> t == s.(holding := false))
            && (!s.disabled && s.reset.None? && !Expires(s) ==> t.reset == Some(s.lastExtension))
  {
  }

  /** In every run, the session times out exactly when the loop decides on a tick of a session that expires. */
  lemma TimesOutIff(trace: seq<State>, steps: seq<Step>, tickError: nat, i: nat)
    requires IsRun(trace, steps, tickError) && i < |steps| && !trace[i].timeout
    ensures trace[i + 1].timeout <==> steps[i].LoopDecide? && Expires(trace[i])
  {
    RunCore(trace, steps, tickError, i);
    assert trace[i + 1] == Next(trace[i], steps[i], tickError);
    if steps[i].LoopDecide? {
      DecideEffect(trace[i], tickError);
    }
  }

  /** Taking an extension from the mailbox arms the timer, and the session is due after it, up to a tick. */
  lemma ResetArms(s: State, tickError: nat)
    requires Enabled(s, LoopReset)
    ensures var t, ext := Next(s, LoopReset, tickError), s.reset.value;
            && t.timer.Armed? && t.reset.None? && !t.hasReset && t.now == s.now
            && DueAfter(t.due, s.now, ext, tickError)
  {
    if s.reset.value >= 0 {
      DurationBounds(s.now, s.reset.value, tickError);
    }
  }

  /** How often a request was begun and not yet ended. */
  function Open(steps: seq<Step>): int {
    if steps == [] then 0
    else
      Open(steps[..|steps| - 1])
      + if steps[|steps| - 1].Busy? then 1 else if steps[|steps| - 1].DoneBusy? then -1 else 0
  }

  /** The time that has passed. */
  function Passed(steps: seq<Step>): nat {
    if steps == [] then 0
    else Passed(steps[..|steps| - 1]) + if steps[|steps| - 1].Wait? then steps[|steps| - 1].d else 0
  }

  /** Whether the last word was to disable the timeout. */
  function LeftDisabled(steps: seq<Step>): bool {
    if steps == [] then false
    else if steps[|steps| - 1].Disable? then true
    else if steps[|steps| - 1].Enable? then false
    else LeftDisabled(steps[..|steps| - 1])
  }

  /** The busy count, the clock and the flags are what the steps of the run have made them. */
  lemma {:induction false} RunCounts(trace: seq<State>, steps: seq<Step>, tickError: nat, i: nat)
    requires IsRun(trace, steps, tickError) && i <= |steps|
    ensures trace[i].active == Open(steps[..i]) && trace[i].now == trace[0].now + Passed(steps[..i])
    ensures trace[i].done <==> Finish in steps[..i]
    ensures trace[i].disabled <==> LeftDisabled(steps[..i])
  {
    if i > 0 {
      RunCounts(trace, steps, tickError, i - 1);
      CountsStep(trace[i - 1], steps[i - 1], tickError);
      assert trace[i - 1 + 1] == Next(trace[i - 1], steps[i - 1], tickError);
      assert steps[..i][..i - 1] == steps[..i - 1];
      assert steps[..i] == steps[..i - 1] + [steps[i - 1]];
    }
  }

  lemma CountsStep(s: State, step: Step, tickError: nat)
    requires Enabled(s, step)
    ensures var t := Next(s, step, tickError);
            && t.active == s.active + (if step.Busy? then 1 else if step.DoneBusy? then -1 else 0)
            && t.now == s.now + (if step.Wait? then step.d else 0)
            && (t.done <==> s.done || step.Finish?)
            && (t.disabled <==> step.Disable? || (s.disabled && !step.Enable?))
  {
    match step
    case LoopReset =>
    case LoopDecide =>
      assert Decided(s, tickError).active == s.active && Decided(s, tickError).now == s.now;
    case Reset =>
      assert Renewed(s, tickError).active == s.active && Renewed(s, tickError).now == s.now;
    case RestartReset =>
      assert Renewed(s, tickError).active == s.active && Renewed(s, tickError).now == s.now;
    case _ =>
  }

  /** Due after the extension, up to the tick error and a tick, or after a millisecond if it is negative. */
  predicate DueAfter(due: int, now: nat, ext: int, tickError: nat) {
    if ext < 0 then due == now + MILLISECOND else now + ext - tickError <= due < now + ext + TICK - tickError
  }

  /** A granted reset promises the extension noted last; one that is not granted changes nothing. */
  lemma GrantedPromise(s: State, tickError: nat)
    ensures Grants(s) ==>
              var t := Next(s, Reset, tickError);
              && t.reset == Some(s.lastExtension) && t.hasReset && t.due == t.promise
              && DueAfter(t.promise, s.now, s.lastExtension, tickError)
    ensures !Grants(s) ==> Next(s, Reset, tickError) == s
  {
    if s.lastExtension >= 0 {
      DurationBounds(s.now, s.lastExtension, tickError);
    }
  }

  /** A new timeout is armed and due after its first extension. */
  lemma InitPromise(now: nat, ext: int, tickError: nat)
    ensures var s := Init(now, ext, tickError);
            && Inv(s, tickError) && s.timer.Armed? && s.reset.None? && Grants(s) && s.active == 0
            && s.now == now && s.lastExtension == ext && DueAfter(s.due, now, ext, tickError)
  {
    if ext >= 0 {
      DurationBounds(now, ext, tickError);
    }
  }

  /** The timeout object; `now` is the clock, read as the time since the session started. */
  class SessionTimeout {
    const tickError: nat
    var now: nat
    var timer: Timer
    var reset: Option<int>
    var hasReset: bool
    var due: int
    var lastExtension: int
    var active: int
    var disabled: bool
    var timeout: bool
    var c: Option<nat>
    var done: bool

    ghost var exited: bool
    ghost var holding: bool
    ghost var restarting: nat
    ghost var posted: nat
    ghost var promise: int
    ghost var signals: nat

    ghost function View(): State
      reads this
    {
      State(now, timer, reset, hasReset, due, lastExtension, active, disabled, timeout, c, done, exited,
            holding, restarting, posted, promise, signals)
    }

    constructor (now: nat, ext: int, tickError: nat)
      ensures this.tickError == tickError && View() == Init(now, ext, tickError) && Inv(View(), tickError)
    {
      this.now, this.tickError, lastExtension, due := now, tickError, ext, Due(now, ext, tickError);
      timer, reset, hasReset, active, disabled, timeout, c, done := Armed, None, false, 0, false, false, None, false;
      exited, holding, restarting, posted, promise, signals := false, false, 0, now, Due(now, ext, tickError), 0;
    }

    /** `resetLocked`: an unread extension in the mailbox is consumed before the new one is put in. */
    method ResetLocked()
      modifies this
      ensures View() == Posted(old(View()), tickError)
    {
      due := Due(now, lastExtension, tickError);
      if reset.Some? {
        reset := None;
      }
      reset := Some(lastExtension);
      hasReset := true;
      posted, promise := now, due;
    }

    /** The unlocked part of `ResetWithExtension`: notes the extension. */
    method Extend(ext: int)
      requires Inv(View(), tickError)
      modifies this
      ensures View() == Next(old(View()), Step.Extend(ext), tickError) && Inv(View(), tickError)
    {
      StepInv(View(), Step.Extend(ext), tickError);
      lastExtension := ext;
    }

    /** `Reset`, under the session lock. */
    method Reset() returns (ok: bool)
      requires Inv(View(), tickError)
      modifies this
      ensures View() == Next(old(View()), Step.Reset, tickError) && Inv(View(), tickError)
      ensures ok == Grants(old(View())) && reset == if ok then Some(lastExtension) else old(reset)
    {
      StepInv(View(), Step.Reset, tickError);
      if timeout || disabled || done {
        return false;
      }
      ResetLocked();
      return true;
    }

    /** `ResetWithExtension`, when no other reset comes between its parts. */
    method ResetWithExtension(ext: int) returns (ok: bool)
      requires Inv(View(), tickError)
      modifies this
      ensures View() == Next(Next(old(View()), Step.Extend(ext), tickError), Step.Reset, tickError)
      ensures Inv(View(), tickError) && ok == Grants(old(View()))
    {
      Extend(ext);
      ok := Reset();
    }

    /** `Halt`: disables the timeout, then stops the timer. */
    method Halt()
      requires Inv(View(), tickError)
      modifies this
      ensures View() == Next(Next(old(View()), Disable, tickError), Stop, tickError) && Inv(View(), tickError)
      ensures disabled && timer.Idle? && reset == old(reset) && due == old(due)
    {
      StepInv(View(), Disable, tickError);
      disabled := true;
      StepInv(View(), Stop, tickError);
      timer := Idle;
    }

    /** `Restart`: enables the timeout, then resets it. */
    method Restart(ext: int)
      requires Inv(View(), tickError)
      modifies this
      ensures Inv(View(), tickError)
      ensures var enabled := Next(Next(old(View()), Enable, tickError), Step.Extend(ext), tickError);
              View() == Next(enabled, RestartReset, tickError)
      ensures !disabled && lastExtension == ext && (!timeout && !done ==> reset == Some(ext))
    {
      EnableAgain();
      Extend(ext);
      ResetAgain();
    }

    method EnableAgain()
      requires Inv(View(), tickError)
      modifies this
      ensures View() == Next(old(View()), Enable, tickError) && Inv(View(), tickError)
    {
      StepInv(View(), Enable, tickError);
      disabled, restarting := false, restarting + 1;
    }

    method ResetAgain()
      requires Inv(View(), tickError) && restarting > 0
      modifies this
      ensures View() == Next(old(View()), RestartReset, tickError) && Inv(View(), tickError)
    {
      StepInv(View(), RestartReset, tickError);
      var _ := Reset();
      restarting := restarting - 1;
    }

    /** The loop's reset case: stops the timer and arms it anew. */
    method OnReset()
      requires Inv(View(), tickError) && Selecting(View()) && reset.Some?
      modifies this
      ensures View() == Next(old(View()), LoopReset, tickError) && Inv(View(), tickError)
      ensures timer.Armed? && reset.None? && due == Due(now, old(reset).value, tickError)
    {
      StepInv(View(), LoopReset, tickError);
      var ext := reset.value;
      reset, timer := None, Idle;
      due := Due(now, ext, tickError);
      timer := Armed;
      hasReset := false;
    }

    /** The loop's tick case up to the session lock: takes the tick and empties the signal channel. */
    method OnTick()
      requires Inv(View(), tickError) && Selecting(View()) && timer.Fired?
      modifies this
      ensures View() == Next(old(View()), LoopTick, tickError) && Inv(View(), tickError)
      ensures holding && timer.Idle? && c.None?
    {
      StepInv(View(), LoopTick, tickError);
      timer, c, holding := Idle, None, true;
    }

    /** The loop's tick case under the session lock. The channel has room for the signal. */
    method Decide()
      requires Inv(View(), tickError) && holding
      modifies this
      ensures View() == Next(old(View()), LoopDecide, tickError) && Inv(View(), tickError)
      ensures old(c).None? && !holding && (timeout <==> old(Expires(View())))
      ensures timeout ==> c == Some(now) && signals == 1
    {
      StepInv(View(), LoopDecide, tickError);
      holding := false;
      if hasReset || disabled {
        return;
      }
      if active > 0 {
        ResetLocked();
      } else if now < due {
        ResetLocked();
      } else {
        c := Some(now);
        timeout := true;
        signals := signals + 1;
      }
    }
  }
}

/** The guided breathing exercise of `useBreathingExercise`: a four-phase state
    machine (idle, inhale, hold, exhale) that runs five inhale-hold-exhale
    cycles and then returns to idle. The phase timer and the progress interval
    become discrete events: `TimerFires` is the phase timer going off and
    `ProgressTick` is one tick of the progress interval. */
module Breathing {
  import opened Wrappers

  datatype Phase = Idle | Inhale | Hold | Exhale

  /** Phase lengths in milliseconds. */
  datatype Config = Config(inhaleDuration: nat, holdDuration: nat, exhaleDuration: nat)

  /** Number of exhales after which a run ends. */
  const CyclesPerRun: nat := 5

  /** The hook's four pieces of state. */
  datatype Snapshot = Snapshot(state: Phase, progress: real, isRunning: bool, currentCycle: nat)

  /** The state `resetExercise` establishes, which is also the initial state. */
  const Stopped := Snapshot(Idle, 0.0, false, 0)

  /** The phase that follows `p` while a run continues: inhale, hold and
      exhale in a cycle of three, idle staying idle. */
  function NextPhase(p: Phase): (r: Phase)
    ensures r == Idle <==> p == Idle
    ensures r != p || p == Idle
  {
    match p
    case Idle => Idle
    case Inhale => Hold
    case Hold => Exhale
    case Exhale => Inhale
  }

  /** Three steps bring every phase back to itself. */
  lemma NextPhaseCycles(p: Phase)
    ensures NextPhase(NextPhase(NextPhase(p))) == p
  {
  }

  /** The states the hook can reach: running exactly when not idle, idle only
      with cycle 0 and progress 0, fewer than five completed cycles, and
      progress within 0..100. */
  predicate Valid(s: Snapshot) {
    && (s.isRunning <==> s.state != Idle)
    && s.currentCycle < CyclesPerRun
    && (s.state == Idle ==> s.currentCycle == 0 && s.progress == 0.0)
    && 0.0 <= s.progress <= 100.0
  }

  /** `startExercise`: begins a run at inhale unless one is already running. */
  function Start(s: Snapshot): (r: Snapshot)
    ensures !s.isRunning ==> r.isRunning && r.state == Inhale && r.progress == 0.0 && r.currentCycle == 0
    ensures s.isRunning ==> r == s
  {
    if !s.isRunning then Snapshot(Inhale, 0.0, true, 0) else s
  }

  /** The phase timer the hook arms in state `s`: none while idle or stopped,
      otherwise one whose length is the configured duration of the current
      phase. */
  function ArmedTimer(s: Snapshot, config: Config): (d: Option<nat>)
    ensures d.None? <==> !s.isRunning || s.state == Idle
    ensures s.isRunning && s.state == Inhale ==> d == Some(config.inhaleDuration)
    ensures s.isRunning && s.state == Hold ==> d == Some(config.holdDuration)
    ensures s.isRunning && s.state == Exhale ==> d == Some(config.exhaleDuration)
  {
    if s.isRunning && s.state != Idle then
      match s.state
      case Inhale => Some(config.inhaleDuration)
      case Hold => Some(config.holdDuration)
      case Exhale => Some(config.exhaleDuration)
    else None
  }

  /** The phase timer going off: progress back to 0, inhale to hold, hold to
      exhale, and exhale either back to inhale with one more completed cycle
      or, at the fifth, a reset to the stopped state. Without an armed timer
      nothing happens. */
  function TimerFired(s: Snapshot): (r: Snapshot)
    ensures !s.isRunning || s.state == Idle ==> r == s
    ensures s.isRunning && s.state != Idle ==> r.progress == 0.0
    ensures s.isRunning && s.state != Idle ==> r == Stopped || (r.state == NextPhase(s.state) && r.isRunning)
    ensures r == Stopped && r != s ==> s.state == Exhale && s.currentCycle + 1 >= CyclesPerRun
    ensures s.isRunning && (s.state == Inhale || s.state == Hold) ==> r.currentCycle == s.currentCycle
    ensures s.isRunning && s.state == Exhale && s.currentCycle + 1 < CyclesPerRun ==>
              r.currentCycle == s.currentCycle + 1 && r.state == Inhale
    ensures s.isRunning && s.state == Exhale && s.currentCycle + 1 >= CyclesPerRun ==> r == Stopped
  {
    if !s.isRunning || s.state == Idle then s
    else match s.state
      case Inhale => s.(progress := 0.0, state := Hold)
      case Hold => s.(progress := 0.0, state := Exhale)
      case Exhale =>
        var newCycle := s.currentCycle + 1;
        if newCycle >= CyclesPerRun then Stopped
        else s.(progress := 0.0, state := Inhale, currentCycle := newCycle)
  }

  /** One tick of the progress interval (every 16 ms): progress grows by
      100 / (duration / 16) and is capped at 100; with a zero duration the
      increment is infinite and progress jumps to 100. */
  function ProgressTicked(s: Snapshot, config: Config): (r: Snapshot)
    ensures ArmedTimer(s, config).None? ==> r == s
    ensures r.state == s.state && r.isRunning == s.isRunning && r.currentCycle == s.currentCycle
    ensures s.progress <= 100.0 && ArmedTimer(s, config).Some? ==> s.progress <= r.progress <= 100.0
    ensures ArmedTimer(s, config) == Some(0) ==> r.progress == 100.0
    ensures forall d :: ArmedTimer(s, config) == Some(d) && d > 0 ==>
              if s.progress + 1600.0 / (d as real) < 100.0 then r.progress == s.progress + 1600.0 / (d as real)
              else r.progress == 100.0
  {
    match ArmedTimer(s, config)
    case None => s
    case Some(duration) =>
      var next := if duration == 0 then 100.0 else s.progress + 1600.0 / (duration as real);
      s.(progress := if next >= 100.0 then 100.0 else next)
  }

  /** `getStateText`: the prompt shown for each phase. */
  function StateText(p: Phase): (r: string)
    ensures p == Idle ==> r == "点击开始呼吸练习"
    ensures p == Inhale ==> r == "慢慢地吸气..."
    ensures p == Hold ==> r == "保持..."
    ensures p == Exhale ==> r == "缓缓地呼气..."
  {
    match p
    case Idle => "点击开始呼吸练习"
    case Inhale => "慢慢地吸气..."
    case Hold => "保持..."
    case Exhale => "缓缓地呼气..."
  }

  /** Every phase has its own prompt text. */
  lemma StateTextInjective(p: Phase, q: Phase)
    ensures StateText(p) == StateText(q) <==> p == q
  {
    if p != q {
      assert StateText(p)[0] != StateText(q)[0] || |StateText(p)| != |StateText(q)|;
    }
  }

  /** Starting, stopping, the phase timer and the progress tick all keep the
      hook within its reachable states. */
  lemma ValidPreserved(s: Snapshot, config: Config)
    requires Valid(s)
    ensures Valid(Start(s)) && Valid(Stopped)
    ensures Valid(TimerFired(s)) && Valid(ProgressTicked(s, config))
  {
  }

  /** The state after the phase timer went off `n` times in a row. */
  function FiredTimes(s: Snapshot, n: nat): Snapshot {
    if n == 0 then s else TimerFired(FiredTimes(s, n - 1))
  }

  /** The phase a run is in after `n` timer events: inhale, hold and exhale in
      turn, with the cycle counter equal to the number of completed exhales. */
  function PhaseAt(n: nat): Phase {
    if n % 3 == 0 then Inhale else if n % 3 == 1 then Hold else Exhale
  }

  /** A run started from the stopped state passes through inhale, hold and
      exhale five times, counting its cycles 0..4, and is still running after
      each of the first fourteen timer events. */
  lemma {:induction false} RunSchedule(n: nat)
    requires n < 3 * CyclesPerRun
    ensures FiredTimes(Start(Stopped), n) == Snapshot(PhaseAt(n), 0.0, true, n / 3)
  {
    if n > 0 {
      RunSchedule(n - 1);
    }
  }

  /** The fifteenth timer event, the end of the fifth exhale, returns the hook
      to the stopped state: a run ends after exactly five exhales. */
  lemma RunEndsAfterFiveExhales()
    ensures forall n :: 0 <= n < 3 * CyclesPerRun ==> FiredTimes(Start(Stopped), n).isRunning
    ensures FiredTimes(Start(Stopped), 3 * CyclesPerRun) == Stopped
  {
    forall n | 0 <= n < 3 * CyclesPerRun
      ensures FiredTimes(Start(Stopped), n).isRunning
    {
      RunSchedule(n);
    }
    RunSchedule(3 * CyclesPerRun - 1);
  }

  /** The hook's state, updated in place by its callbacks. */
  class BreathingExercise {
    const config: Config
    var state: Phase
    var progress: real
    var isRunning: bool
    var currentCycle: nat

    function Snap(): Snapshot
      reads this
    {
      Snapshot(state, progress, isRunning, currentCycle)
    }

    constructor (config: Config)
      ensures this.config == config && Snap() == Stopped && Valid(Snap())
    {
      this.config := config;
      state, progress, isRunning, currentCycle := Idle, 0.0, false, 0;
    }

    /** `resetExercise`. */
    method ResetExercise()
      modifies this
      ensures Snap() == Stopped && Valid(Snap())
    {
      state := Idle;
      progress := 0.0;
      isRunning := false;
      currentCycle := 0;
    }

    /** `startExercise`. */
    method StartExercise()
      modifies this
      ensures Snap() == Start(old(Snap()))
      ensures Valid(old(Snap())) ==> Valid(Snap())
    {
      if !isRunning {
        isRunning := true;
        state := Inhale;
        progress := 0.0;
        currentCycle := 0;
      }
    }

    /** `stopExercise`. */
    method StopExercise()
      modifies this
      ensures Snap() == Stopped && Valid(Snap())
    {
      ResetExercise();
    }

    /** The phase timer's callback; it only exists while a phase is running. */
    method TimerFires()
      modifies this
      ensures Snap() == TimerFired(old(Snap()))
      ensures Valid(old(Snap())) ==> Valid(Snap())
    {
      if isRunning && state != Idle {
        progress := 0.0;
        if state == Inhale {
          state := Hold;
        } else if state == Hold {
          state := Exhale;
        } else if state == Exhale {
          var newCycle := currentCycle + 1;
          if newCycle >= CyclesPerRun {
            ResetExercise();
          } else {
            state := Inhale;
            currentCycle := newCycle;
          }
        }
      }
    }

    /** The progress interval's callback; it only exists while a phase is running. */
    method ProgressTick()
      modifies this
      ensures Snap() == ProgressTicked(old(Snap()), config)
      ensures Valid(old(Snap())) ==> Valid(Snap())
    {
      var timer := ArmedTimer(Snap(), config);
      if timer.Some? {
        var duration := timer.value;
        var newProgress := if duration == 0 then 100.0 else progress + 1600.0 / (duration as real);
        progress := if newProgress >= 100.0 then 100.0 else newProgress;
      }
    }
  }
}

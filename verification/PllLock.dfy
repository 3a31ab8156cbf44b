/** PLL lock service: a filter over the last samples of the locked signal and the state machine it drives. */
module PllLock {
  import opened Streams

  datatype Phase = Reset | WaitForLock | Locked | ResetLoad

  /** q holds the last samples, the youngest at the end. */
  datatype Service = Service(
    q: seq<bool>, stable: bool, filtered: bool, phase: Phase, locked: bool, pllReset: bool)

  function ResetService(stages: nat): Service {
    Service(seq(stages, _ => false), false, false, Reset, false, true)
  }

  predicate AllHigh(q: seq<bool>) {
    forall i :: 0 <= i < |q| ==> q[i]
  }

  predicate AllLow(q: seq<bool>) {
    forall i :: 0 <= i < |q| ==> !q[i]
  }

  /** timer is a valid last beat of the timer stream; the service takes it in every phase but Locked. */
  function PhaseNext(s: Service, timer: bool): Phase {
    match s.phase
    case Reset => if timer then WaitForLock else Reset
    case WaitForLock => if s.stable then Locked else if timer then ResetLoad else WaitForLock
    case Locked => if !s.filtered then ResetLoad else Locked
    case ResetLoad => Reset
  }

  function ServiceNext(s: Service, sample: bool, timer: bool): Service
    requires |s.q| > 0
  {
    Service(s.q[1..] + [sample], AllHigh(s.q), !AllLow(s.q), PhaseNext(s, timer), s.phase == Locked, s.phase == Reset)
  }

  /** How long the timer measures in the two timed phases. */
  datatype Durations = Durations(reset: nat, waitForLock: nat)

  /** The beat sent to the timer's configuration stream at a clock. */
  function TimerConfig(s: Service, timer: bool, d: Durations): Option<nat> {
    match s.phase
    case ResetLoad => Some(d.reset)
    case Reset => if timer then Some(d.waitForLock) else None
    case _ => None
  }

  /** The timer is configured exactly at the clock that enters a timed phase, and for that phase. */
  lemma TimerIsConfigured(s: Service, sample: bool, timer: bool, d: Durations)
    requires |s.q| > 0
    ensures var next := ServiceNext(s, sample, timer).phase;
            TimerConfig(s, timer, d)
            == if next == s.phase then None
               else if next == Reset then Some(d.reset)
               else if next == WaitForLock then Some(d.waitForLock)
               else None
  {
  }

  datatype Input = Input(sample: bool, timer: bool)

  /** The service after each input from reset. */
  function Run(stages: nat, inputs: seq<Input>): (s: Service)
    requires stages > 0
    ensures |s.q| == stages
  {
    if inputs == [] then ResetService(stages) else
    var i := inputs[|inputs| - 1];
    ServiceNext(Run(stages, inputs[..|inputs| - 1]), i.sample, i.timer)
  }

  /** The samples with the zeros the filter starts from in front. */
  function History(stages: nat, inputs: seq<Input>): (h: seq<bool>)
    ensures |h| == stages + |inputs|
  {
    seq(stages + |inputs|, i requires 0 <= i < stages + |inputs| => i >= stages && inputs[i - stages].sample)
  }

  lemma HistoryPrefix(stages: nat, inputs: seq<Input>, n: nat)
    requires n <= |inputs|
    ensures History(stages, inputs)[..stages + n] == History(stages, inputs[..n])
    ensures History(stages, inputs)[n..n + stages] == History(stages, inputs[..n])[n..]
  {
    var all, part := History(stages, inputs), History(stages, inputs[..n]);
    forall i | 0 <= i < stages + n ensures all[i] == part[i] {
      if i >= stages {
        assert inputs[..n][i - stages] == inputs[i - stages];
      }
    }
  }

  lemma {:induction false} FilterHoldsLastSamples(stages: nat, inputs: seq<Input>)
    requires stages > 0
    ensures Run(stages, inputs).q == History(stages, inputs)[|inputs|..]
  {
    if inputs != [] {
      var n := |inputs| - 1;
      FilterHoldsLastSamples(stages, inputs[..n]);
      HistoryPrefix(stages, inputs, n);
      var h := History(stages, inputs);
      assert h[n..n + stages][1..] == h[n + 1..n + stages];
      assert h[n + 1..] == h[n + 1..n + stages] + [inputs[n].sample];
    }
  }

  /** The samples behind the flags: the filter's content one clock earlier. */
  function Window(stages: nat, inputs: seq<Input>): (w: seq<bool>)
    requires |inputs| > 0
    ensures |w| == stages
  {
    History(stages, inputs)[|inputs| - 1..|inputs| - 1 + stages]
  }

  lemma WindowIsFilter(stages: nat, inputs: seq<Input>)
    requires stages > 0 && |inputs| > 0
    ensures Run(stages, inputs[..|inputs| - 1]).q == Window(stages, inputs)
  {
    var n := |inputs| - 1;
    FilterHoldsLastSamples(stages, inputs[..n]);
    HistoryPrefix(stages, inputs, n);
  }

  lemma FlagsFollowFilter(stages: nat, inputs: seq<Input>)
    requires stages > 0
    ensures var s := Run(stages, inputs);
            if inputs == [] then !s.stable && !s.filtered
            else s.stable == AllHigh(Window(stages, inputs)) && s.filtered == !AllLow(Window(stages, inputs))
  {
    if inputs != [] {
      WindowIsFilter(stages, inputs);
    }
  }

  /** All samples from..to are level. */
  predicate Steady(inputs: seq<Input>, from: int, to: int, level: bool) {
    0 <= from <= to <= |inputs| && forall j :: from <= j < to ==> inputs[j].sample == level
  }

  /** A full window of samples, once there were that many. */
  lemma WindowIsSteady(stages: nat, inputs: seq<Input>)
    requires stages > 0 && |inputs| > 0
    ensures var n := |inputs|;
            && (AllHigh(Window(stages, inputs)) <==> Steady(inputs, n - 1 - stages, n - 1, true))
            && (n > stages ==> (AllLow(Window(stages, inputs)) <==> Steady(inputs, n - 1 - stages, n - 1, false)))
  {
    var n, w := |inputs|, Window(stages, inputs);
    forall i | 0 <= i < stages
      ensures w[i] == (n - 1 - stages + i >= 0 && inputs[n - 1 - stages + i].sample)
    {
    }
    if n > stages {
      forall j | n - 1 - stages <= j < n - 1 ensures inputs[j].sample == w[j - (n - 1 - stages)] {
      }
    } else {
      assert !w[0];
    }
  }

  lemma RunStep(stages: nat, inputs: seq<Input>, last: Input)
    requires stages > 0
    ensures Run(stages, inputs + [last]) == ServiceNext(Run(stages, inputs), last.sample, last.timer)
  {
    assert (inputs + [last])[..|inputs|] == inputs;
  }

  /** Exactly when the phase becomes Locked: while waiting, after stages high samples in a row. */
  lemma EntersLocked(stages: nat, inputs: seq<Input>, last: Input)
    requires stages > 0
    ensures var s, n := Run(stages, inputs), |inputs|;
            s.phase != Locked && Run(stages, inputs + [last]).phase == Locked
            <==> s.phase == WaitForLock && Steady(inputs, n - 1 - stages, n - 1, true)
  {
    RunStep(stages, inputs, last);
    FlagsFollowFilter(stages, inputs);
    if inputs != [] {
      WindowIsSteady(stages, inputs);
    }
  }

  /** The Locked phase is only reached after more than stages clocks. */
  lemma {:induction false} LockedTakesTime(stages: nat, inputs: seq<Input>)
    requires stages > 0 && Run(stages, inputs).phase == Locked
    ensures |inputs| >= stages + 2
  {
    if inputs != [] {
      var n := |inputs| - 1;
      assert inputs[..n] + [inputs[n]] == inputs;
      if Run(stages, inputs[..n]).phase == Locked {
        LockedTakesTime(stages, inputs[..n]);
      } else {
        EntersLocked(stages, inputs[..n], inputs[n]);
      }
    }
  }

  /** Exactly when the phase leaves Locked: after stages low samples in a row. */
  lemma LeavesLocked(stages: nat, inputs: seq<Input>, last: Input)
    requires stages > 0 && Run(stages, inputs).phase == Locked
    ensures var n := |inputs|;
            Run(stages, inputs + [last]).phase != Locked <==> Steady(inputs, n - 1 - stages, n - 1, false)
  {
    RunStep(stages, inputs, last);
    FlagsFollowFilter(stages, inputs);
    LockedTakesTime(stages, inputs);
    WindowIsSteady(stages, inputs);
  }

  /** The outputs say at each clock which phase the one before it began in. */
  lemma OutputsFollowPhase(stages: nat, inputs: seq<Input>, last: Input)
    requires stages > 0
    ensures Run(stages, inputs + [last]).locked <==> Run(stages, inputs).phase == Locked
    ensures Run(stages, inputs + [last]).pllReset <==> Run(stages, inputs).phase == Reset
  {
    RunStep(stages, inputs, last);
  }

  /** The next phase in terms of the samples and the timer's beats alone. */
  lemma PhaseStep(stages: nat, inputs: seq<Input>, last: Input)
    requires stages > 0
    ensures var phase, next, n := Run(stages, inputs).phase, Run(stages, inputs + [last]).phase, |inputs|;
            && (phase == Reset ==> next == if last.timer then WaitForLock else Reset)
            && (phase == WaitForLock ==>
                  next == if Steady(inputs, n - 1 - stages, n - 1, true) then Locked
                          else if last.timer then ResetLoad else WaitForLock)
            && (phase == Locked ==>
                  next == if Steady(inputs, n - 1 - stages, n - 1, false) then ResetLoad else Locked)
            && (phase == ResetLoad ==> next == Reset)
  {
    RunStep(stages, inputs, last);
    EntersLocked(stages, inputs, last);
    if Run(stages, inputs).phase == Locked {
      LeavesLocked(stages, inputs, last);
    }
  }

  /** Main result: exactly when the locked output rises and falls: while waiting for lock, after stages high
      samples in a row, and while shown, after stages low ones; so no shorter glitch of the PLL's signal ever
      toggles it, whatever the timer does. */
  lemma LockedIsFiltered(stages: nat, inputs: seq<Input>, next: Input, last: Input)
    requires stages > 0
    ensures var was, now := Run(stages, inputs + [next]).locked, Run(stages, (inputs + [next]) + [last]).locked;
            var n := |inputs|;
            && (!was && now <==>
                  Run(stages, inputs).phase == WaitForLock && Steady(inputs, n - 1 - stages, n - 1, true))
            && (was && !now <==> was && Steady(inputs, n - 1 - stages, n - 1, false))
            && (was != now ==> Steady(inputs, n - 1 - stages, n - 1, now))
  {
    OutputsFollowPhase(stages, inputs, next);
    OutputsFollowPhase(stages, inputs + [next], last);
    PhaseStep(stages, inputs, next);
  }

  // ----- the phases over a run -----

  predicate NoBeat(inputs: seq<Input>) {
    forall k :: 0 <= k < |inputs| ==> !inputs[k].timer
  }

  /** The PLL is held in reset until the timer's beat. */
  lemma {:induction false} ResetLasts(stages: nat, inputs: seq<Input>, more: seq<Input>)
    requires stages > 0 && Run(stages, inputs).phase == Reset && NoBeat(more)
    ensures Run(stages, inputs + more).phase == Reset
    ensures more != [] ==> Run(stages, inputs + more).pllReset
  {
    if more == [] {
      assert inputs + more == inputs;
    } else {
      var n := |more| - 1;
      ResetLasts(stages, inputs, more[..n]);
      assert (inputs + more[..n]) + [more[n]] == inputs + more;
      PhaseStep(stages, inputs + more[..n], more[n]);
      OutputsFollowPhase(stages, inputs + more[..n], more[n]);
    }
  }

  /** From power up on. */
  lemma ResetFromPowerUp(stages: nat, inputs: seq<Input>)
    requires stages > 0 && NoBeat(inputs)
    ensures var s := Run(stages, inputs); s.phase == Reset && s.pllReset && !s.locked
  {
    assert [] + inputs == inputs;
    ResetLasts(stages, [], inputs);
    if inputs != [] {
      var n := |inputs| - 1;
      ResetLasts(stages, [], inputs[..n]);
      assert [] + inputs[..n] == inputs[..n] && inputs[..n] + [inputs[n]] == inputs;
      OutputsFollowPhase(stages, inputs[..n], inputs[n]);
    }
  }

  /** All samples are high. */
  predicate AllSamplesHigh(inputs: seq<Input>) {
    forall k :: 0 <= k < |inputs| ==> inputs[k].sample
  }

  lemma SteadyAppend(inputs: seq<Input>, more: seq<Input>, from: int)
    requires 0 < |more| && AllSamplesHigh(more) && from <= |inputs| + |more| - 1
    ensures |inputs| <= from ==> Steady(inputs + more, from, |inputs| + |more| - 1, true)
    ensures from < |inputs| + |more| - 1 && |more| > 1 ==> !Steady(inputs + more, from, |inputs| + |more| - 1, false)
  {
    var all := inputs + more;
    forall j | |inputs| <= j < |all| ensures all[j].sample {
      assert all[j] == more[j - |inputs|];
    }
    if from < |all| - 1 && |more| > 1 {
      assert all[|all| - 2].sample;
    }
  }

  /** While samples stay high, waiting ends in the locked phase, and that is kept. */
  lemma {:induction false} LockComes(stages: nat, inputs: seq<Input>, more: seq<Input>)
    requires stages >= 2 && Run(stages, inputs).phase == WaitForLock && NoBeat(more) && AllSamplesHigh(more)
    ensures var phase := Run(stages, inputs + more).phase;
            && (phase == Locked || (phase == WaitForLock && |more| < stages + 2))
            && (|more| == 1 && phase == Locked ==> Steady(inputs, |inputs| - 1 - stages, |inputs| - 1, true))
  {
    if more == [] {
      assert inputs + more == inputs;
    } else {
      var n := |more| - 1;
      LockComes(stages, inputs, more[..n]);
      assert (inputs + more[..n]) + [more[n]] == inputs + more;
      PhaseStep(stages, inputs + more[..n], more[n]);
      if n == 0 {
        assert inputs + more[..n] == inputs;
      } else {
        var all, from := inputs + more[..n], |inputs| + n - 1 - stages;
        SteadyAppend(inputs, more[..n], from);
        if n == 1 && Run(stages, all).phase == Locked {
          assert all[|inputs| - 2] == inputs[|inputs| - 2] && inputs[|inputs| - 2].sample;
        }
      }
    }
  }

  /** Lock is shown stages + 3 clocks after the samples have become high for good, if the service is waiting. */
  lemma LockIsShown(stages: nat, inputs: seq<Input>, more: seq<Input>)
    requires stages >= 2 && Run(stages, inputs).phase == WaitForLock && NoBeat(more) && AllSamplesHigh(more)
    requires |more| >= stages + 3
    ensures Run(stages, inputs + more).locked && !Run(stages, inputs + more).pllReset
  {
    var n := |more| - 1;
    LockComes(stages, inputs, more[..n]);
    assert (inputs + more[..n]) + [more[n]] == inputs + more;
    OutputsFollowPhase(stages, inputs + more[..n], more[n]);
  }

  /** A wait that is not over at the timer's beat is given up: two clocks later the PLL is in reset again. */
  lemma GivesUp(stages: nat, inputs: seq<Input>, beat: Input, next: Input, then': Input)
    requires stages > 0 && Run(stages, inputs).phase == WaitForLock && beat.timer
    ensures var s := Run(stages, ((inputs + [beat]) + [next]) + [then']);
            if Steady(inputs, |inputs| - 1 - stages, |inputs| - 1, true)
            then Run(stages, inputs + [beat]).phase == Locked
            else s.pllReset && !s.locked
  {
    PhaseStep(stages, inputs, beat);
    PhaseStep(stages, inputs + [beat], next);
    OutputsFollowPhase(stages, (inputs + [beat]) + [next], then');
  }

  /** The PLL is never in reset while lock is shown; and once lock is lost, lock is withdrawn and the
      PLL is in reset two clocks later, whatever the inputs. */
  lemma LossOfLockResets(stages: nat, inputs: seq<Input>, last: Input, next: Input, then': Input)
    requires stages > 0
    ensures Run(stages, inputs).locked ==> !Run(stages, inputs).pllReset
    ensures Run(stages, inputs).phase == Locked && Run(stages, inputs + [last]).phase != Locked ==>
              var s := Run(stages, ((inputs + [last]) + [next]) + [then']); s.pllReset && !s.locked
  {
    RunStep(stages, inputs, last);
    RunStep(stages, inputs + [last], next);
    RunStep(stages, (inputs + [last]) + [next], then');
  }

  class LockService {
    const durations: Durations
    var q: seq<bool>
    var stable: bool
    var filtered: bool
    var phase: Phase
    var locked: bool
    var pllReset: bool

    function State(): Service
      reads this
    {
      Service(q, stable, filtered, phase, locked, pllReset)
    }

    constructor (stages: nat, durations: Durations)
      requires stages >= 2 && durations.reset >= 2 && durations.waitForLock >= 2
      ensures State() == ResetService(stages) && this.durations == durations
    {
      this.durations := durations;
      q, stable, filtered, phase, locked, pllReset := seq(stages, _ => false), false, false, Reset, false, true;
    }

    /** Reduction of the filter: all samples high, any sample high. */
    method Reduce() returns (all: bool, any: bool)
      ensures all == AllHigh(q) && any == !AllLow(q)
    {
      all, any := true, false;
      for k := 0 to |q|
        invariant all == AllHigh(q[..k]) && any == !AllLow(q[..k])
      {
        assert q[..k + 1] == q[..k] + [q[k]];
        all, any := all && q[k], any || q[k];
      }
      assert q[..|q|] == q;
    }

    /** One clock edge; config is what is sent to the timer at that clock. */
    method Clock(pllLocked: bool, timer: bool) returns (config: Option<nat>)
      requires |q| >= 2
      modifies this
      ensures config == TimerConfig(old(State()), timer, durations)
      ensures State() == ServiceNext(old(State()), pllLocked, timer)
    {
      var timerEvent := phase != Locked && timer;
      var all, any := Reduce();
      locked := phase == Locked;
      pllReset := phase == Reset;
      config := None;
      match phase {
        case Reset =>
          if timerEvent {
            config := Some(durations.waitForLock);
            phase := WaitForLock;
          }
        case WaitForLock =>
          if stable {
            phase := Locked;
          } else if timerEvent {
            phase := ResetLoad;
          }
        case Locked =>
          if !filtered {
            phase := ResetLoad;
          }
        case ResetLoad =>
          config := Some(durations.reset);
          phase := Reset;
      }
      stable, filtered := all, any;
      q := q[1..] + [pllLocked];
    }
  }
}

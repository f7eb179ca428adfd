/**
  Properties of whole runs of the reachability monitor: which ticks attempt a
  notification, how many attempts a run makes, that attempts alternate between
  "lost" and "restored", and that the self-connectivity gate decides delivery
  only, never the recorded state or the decision to attempt.
 */
module Traces {
  import opened Settings
  import opened Notifier
  import opened Monitor

  /**
    Tick `i` observes a transition: the first tick sees the target down, or a
    later tick's probe differs from the previous tick's.
   */
  predicate ChangedAt(ticks: seq<Tick>, i: int)
    requires 0 <= i < |ticks|
  {
    if i == 0 then !ticks[0].probe else ticks[i].probe != ticks[i - 1].probe
  }

  /**
    The event of every tick, stated without the fold: an attempt exactly at a
    transition, in the direction of the new probe, delivered exactly when that
    tick's gate passed.
   */
  lemma {:induction false} EventAt(cfg: Config, ticks: seq<Tick>, i: int)
    requires 0 <= i < |ticks|
    ensures Run(cfg, ticks).events[i] ==
      (if ChangedAt(ticks, i) then Attempt(ticks[i].probe, TrySend(cfg, ticks[i].probe, ticks[i].gate)) else Quiet)
    decreases |ticks|
  {
    var n := |ticks|;
    var init := ticks[..n - 1];
    if i < n - 1 {
      EventAt(cfg, init, i);
      assert init[i] == ticks[i];
      if i > 0 {
        assert init[i - 1] == ticks[i - 1];
      }
    }
  }

  /** A tick whose probe agrees with the previous one attempts nothing. */
  lemma Debounced(cfg: Config, ticks: seq<Tick>, i: int)
    requires 0 < i < |ticks| && ticks[i].probe == ticks[i - 1].probe
    ensures Run(cfg, ticks).events[i] == Quiet
  {
    EventAt(cfg, ticks, i);
  }

  /** The probe results of a sequence of ticks. */
  function Probes(ticks: seq<Tick>): (p: seq<bool>)
    ensures |p| == |ticks|
    ensures forall i :: 0 <= i < |ticks| ==> p[i] == ticks[i].probe
  {
    seq(|ticks|, i requires 0 <= i < |ticks| => ticks[i].probe)
  }

  /** The number of adjacent positions at which `p` changes value. */
  function Transitions(p: seq<bool>): nat
    decreases |p|
  {
    if |p| <= 1 then 0
    else Transitions(p[..|p| - 1]) + (if p[|p| - 1] != p[|p| - 2] then 1 else 0)
  }

  /** The number of notification attempts among `events`. */
  function Attempts(events: seq<Event>): nat
    decreases |events|
  {
    if |events| == 0 then 0
    else Attempts(events[..|events| - 1]) + (if events[|events| - 1].Attempt? then 1 else 0)
  }

  /**
    A run makes one attempt per change between adjacent probes, plus one when
    the very first probe finds the target down.
   */
  lemma {:induction false} AttemptCount(cfg: Config, ticks: seq<Tick>)
    ensures Attempts(Run(cfg, ticks).events) ==
      Transitions(Probes(ticks)) + (if |ticks| > 0 && !ticks[0].probe then 1 else 0)
    decreases |ticks|
  {
    var n := |ticks|;
    if n > 0 {
      var init := ticks[..n - 1];
      var before := Run(cfg, init);
      var events := Run(cfg, ticks).events;
      AttemptCount(cfg, init);
      assert events == before.events + [events[n - 1]];
      assert events[..n - 1] == before.events;
      assert Probes(ticks)[..n - 1] == Probes(init);
      EventAt(cfg, ticks, n - 1);
      if n > 1 {
        assert init[0] == ticks[0];
      }
    }
  }

  /**
    Probes decide everything but delivery: two runs with the same probe
    results end in the same state and attempt at the same ticks in the same
    directions, whatever their gates answered.
   */
  lemma GateDecidesDeliveryOnly(cfg: Config, t1: seq<Tick>, t2: seq<Tick>)
    requires Probes(t1) == Probes(t2)
    ensures Run(cfg, t1).phase == Run(cfg, t2).phase
    ensures forall i :: 0 <= i < |t1| ==>
      && (Run(cfg, t1).events[i].Attempt? <==> Run(cfg, t2).events[i].Attempt?)
      && (Run(cfg, t1).events[i].Attempt? ==> Run(cfg, t1).events[i].up == Run(cfg, t2).events[i].up)
  {
    forall i | 0 <= i < |t1| {
      SameDecisionAt(cfg, t1, t2, i);
    }
  }

  lemma SameDecisionAt(cfg: Config, t1: seq<Tick>, t2: seq<Tick>, i: int)
    requires Probes(t1) == Probes(t2) && 0 <= i < |t1|
    ensures Run(cfg, t1).events[i].Attempt? <==> Run(cfg, t2).events[i].Attempt?
    ensures Run(cfg, t1).events[i].Attempt? ==> Run(cfg, t1).events[i].up == Run(cfg, t2).events[i].up
  {
    EventAt(cfg, t1, i);
    EventAt(cfg, t2, i);
  }

  /** An attempt is delivered exactly when the gate passed at that tick, and then carries the composed mail. */
  lemma DeliveryFollowsGate(cfg: Config, ticks: seq<Tick>, i: int)
    requires 0 <= i < |ticks| && Run(cfg, ticks).events[i].Attempt?
    ensures Run(cfg, ticks).events[i].outcome.Sent? <==> ticks[i].gate
    ensures Run(cfg, ticks).events[i].outcome.Sent? ==>
      Run(cfg, ticks).events[i].outcome.mail == ComposeMail(cfg, ticks[i].probe)
  {
    EventAt(cfg, ticks, i);
  }

  /** Without a transition in between, the probe keeps its value. */
  lemma {:induction false} SteadyProbe(ticks: seq<Tick>, i: int, m: int)
    requires 0 <= i <= m < |ticks|
    requires forall k :: i < k <= m ==> !ChangedAt(ticks, k)
    ensures ticks[m].probe == ticks[i].probe
    decreases m - i
  {
    if m > i {
      SteadyProbe(ticks, i, m - 1);
      assert !ChangedAt(ticks, m);
    }
  }

  /** Consecutive attempts report opposite directions: no duplicate "lost" or "restored". */
  lemma AttemptsAlternate(cfg: Config, ticks: seq<Tick>, i: int, j: int)
    requires 0 <= i < j < |ticks|
    requires Run(cfg, ticks).events[i].Attempt? && Run(cfg, ticks).events[j].Attempt?
    requires forall k :: i < k < j ==> Run(cfg, ticks).events[k] == Quiet
    ensures Run(cfg, ticks).events[j].up != Run(cfg, ticks).events[i].up
  {
    EventAt(cfg, ticks, i);
    EventAt(cfg, ticks, j);
    forall k | i < k <= j - 1
      ensures !ChangedAt(ticks, k)
    {
      EventAt(cfg, ticks, k);
    }
    SteadyProbe(ticks, i, j - 1);
  }

  /** The first attempt of any run reports the connection lost. */
  lemma FirstAttemptIsLost(cfg: Config, ticks: seq<Tick>, j: int)
    requires 0 <= j < |ticks| && Run(cfg, ticks).events[j].Attempt?
    requires forall k :: 0 <= k < j ==> Run(cfg, ticks).events[k] == Quiet
    ensures !Run(cfg, ticks).events[j].up
  {
    EventAt(cfg, ticks, j);
    if j > 0 {
      forall k | 0 <= k <= j - 1
        ensures !ChangedAt(ticks, k)
      {
        EventAt(cfg, ticks, k);
      }
      assert !ChangedAt(ticks, 0);
      SteadyProbe(ticks, 0, j - 1);
      assert ticks[j - 1].probe;
    }
  }

  /** Up, up, down, down, up with every gate passing: quiet, quiet, lost, quiet, restored; ends up. */
  lemma Scenario(cfg: Config)
    ensures var ticks := [Tick(true, true), Tick(true, true), Tick(false, true), Tick(false, true), Tick(true, true)];
      Run(cfg, ticks) == Trace(Watching(true), [Quiet, Quiet, AttemptEvent(cfg, false, true), Quiet, AttemptEvent(cfg, true, true)])
  {
    var ticks := [Tick(true, true), Tick(true, true), Tick(false, true), Tick(false, true), Tick(true, true)];
    var events := Run(cfg, ticks).events;
    EventAt(cfg, ticks, 0);
    EventAt(cfg, ticks, 1);
    EventAt(cfg, ticks, 2);
    EventAt(cfg, ticks, 3);
    EventAt(cfg, ticks, 4);
  }

  /**
    From the start of a run, down, up, down makes three attempts, lost,
    restored, lost, whatever the gates answer: a first probe that is down is
    notified too.
   */
  lemma DownUpDownFromStart(cfg: Config, g0: bool, g1: bool, g2: bool)
    ensures var ticks := [Tick(false, g0), Tick(true, g1), Tick(false, g2)];
      && Run(cfg, ticks).events == [AttemptEvent(cfg, false, g0), AttemptEvent(cfg, true, g1), AttemptEvent(cfg, false, g2)]
      && Attempts(Run(cfg, ticks).events) == 3
  {
    var ticks := [Tick(false, g0), Tick(true, g1), Tick(false, g2)];
    EventAt(cfg, ticks, 0);
    EventAt(cfg, ticks, 1);
    EventAt(cfg, ticks, 2);
    var events := Run(cfg, ticks).events;
    assert Attempts(events[..1]) == 1 by {
      assert events[..1][..0] == [];
    }
    assert Attempts(events[..2]) == 2 by {
      assert events[..2][..1] == events[..1];
    }
    assert events[..3] == events;
  }
}

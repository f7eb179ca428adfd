/**
  The reachability monitor (notify_ping.py, lines 108-142): one probe per
  tick, a notification attempt exactly when the observed reachability differs
  from the recorded one, and the record then updated. Probe and gate results
  are inputs, one pair per tick; sleeping between ticks is not modelled, and a
  run of the endless loop is represented by a finite prefix of its ticks.
 */
module Monitor {
  import opened Settings
  import opened Notifier

  /** Before the first probe nothing is recorded; afterwards the recorded `was_connected`. */
  datatype Phase = Starting | Watching(wasConnected: bool)

  /** What one tick observes: the probe of the target, and the gate's answer if an attempt is made. */
  datatype Tick = Tick(probe: bool, gate: bool)

  /** What one tick does about notification: nothing, or one attempt in the given direction. */
  datatype Event = Quiet | Attempt(up: bool, outcome: Outcome)

  datatype StepResult = StepResult(phase: Phase, event: Event)

  /** The phase after a prefix of ticks and the event of each tick, in order. */
  datatype Trace = Trace(phase: Phase, events: seq<Event>)

  /**
    One tick. The very first one notifies only when the target is down; a later
    one notifies exactly when the probe disagrees with the recorded state. The
    recorded state always becomes the probe's result, whatever the gate said.
   */
  function Step(cfg: Config, s: Phase, t: Tick): (r: StepResult)
    ensures r.phase == Watching(t.probe)
    ensures s.Starting? ==> (r.event.Attempt? <==> !t.probe)
    ensures s.Watching? ==> (r.event.Attempt? <==> t.probe != s.wasConnected)
    ensures r.event.Attempt? ==> r.event == Attempt(t.probe, TrySend(cfg, t.probe, t.gate))
    ensures s.Watching? && t.probe == s.wasConnected ==> r == StepResult(s, Quiet)
  {
    match s
    case Starting =>
      if t.probe then StepResult(Watching(true), Quiet)
      else StepResult(Watching(false), Attempt(false, TrySend(cfg, false, t.gate)))
    case Watching(wasConnected) =>
      if !t.probe then
        if wasConnected then StepResult(Watching(false), Attempt(false, TrySend(cfg, false, t.gate)))
        else StepResult(s, Quiet)
      else
        if !wasConnected then StepResult(Watching(true), Attempt(true, TrySend(cfg, true, t.gate)))
        else StepResult(s, Quiet)
  }

  /** The first tick behaves exactly as a later tick would after the target had been up. */
  lemma FirstTickActsAsConnected(cfg: Config, t: Tick)
    ensures Step(cfg, Starting, t) == Step(cfg, Watching(true), t)
  {
  }

  /**
    The monitor's behaviour over a finite prefix of ticks: `Step` folded from
    `Starting`. After at least one tick the recorded state is the latest probe.
   */
  function Run(cfg: Config, ticks: seq<Tick>): (tr: Trace)
    ensures |tr.events| == |ticks|
    ensures |ticks| == 0 ==> tr.phase == Starting
    ensures |ticks| > 0 ==> tr.phase == Watching(ticks[|ticks| - 1].probe)
    decreases |ticks|
  {
    if |ticks| == 0 then Trace(Starting, [])
    else
      var before := Run(cfg, ticks[..|ticks| - 1]);
      var r := Step(cfg, before.phase, ticks[|ticks| - 1]);
      Trace(r.phase, before.events + [r.event])
  }

  /** The event of one attempt made with the given direction and gate answer. */
  function AttemptEvent(cfg: Config, up: bool, gate: bool): Event {
    Attempt(up, TrySend(cfg, up, gate))
  }

  /**
    The script's own control flow: the initial probe (lines 108-117) followed
    by the loop body (lines 123-142) once per remaining tick, on a single
    mutable `wasConnected`. It produces exactly the trace of `Run`.
   */
  method WatchLoop(cfg: Config, first: Tick, rest: seq<Tick>) returns (wasConnected: bool, events: seq<Event>)
    ensures |events| == 1 + |rest|
    ensures wasConnected == (if |rest| == 0 then first.probe else rest[|rest| - 1].probe)
    ensures Run(cfg, [first] + rest) == Trace(Watching(wasConnected), events)
  {
    wasConnected := false;
    if first.probe {
      wasConnected := true;
      events := [Quiet];
    } else {
      events := [AttemptEvent(cfg, false, first.gate)];
      wasConnected := false;
    }
    var i := 0;
    while i < |rest|
      invariant 0 <= i <= |rest|
      invariant Run(cfg, [first] + rest[..i]) == Trace(Watching(wasConnected), events)
    {
      var t := rest[i];
      if !t.probe {
        if wasConnected {
          events := events + [AttemptEvent(cfg, false, t.gate)];
          wasConnected := false;
        } else {
          events := events + [Quiet];
        }
      } else {
        if !wasConnected {
          events := events + [AttemptEvent(cfg, true, t.gate)];
          wasConnected := true;
        } else {
          events := events + [Quiet];
        }
      }
      assert ([first] + rest[..i + 1])[..1 + i] == [first] + rest[..i];
      i := i + 1;
    }
    assert rest[..|rest|] == rest;
  }
}

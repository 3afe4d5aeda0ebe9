/** The consumer loops. The road stage only republishes frames; the secondary
    stage branches on the mode it reads for each frame: in driver mode it
    debounces low eye-aspect-ratio readings into a DRIVER DROWSY alert, in
    cargo mode it alerts on every frame in which a hand is seen. The vision
    models are inputs: a function from a frame to what they report. */
module Stages {
  import opened Wrappers
  import opened Fleet
  import opened Events
  import opened FrameLink

  const EarThreshold: real := 0.18
  const DrowsyLimit: nat := 12
  const DrowsyAlert: string := "\U{26A0}\U{FE0F} DRIVER DROWSY"
  const CargoAlert: string := "\U{26A0}\U{FE0F} UNAUTHORIZED CARGO ACCESS"

  /** What the vision models report for one frame: the eye-aspect ratio averaged
      over both eyes when a face is found, and whether any hand is found. */
  datatype Observation = Observation(ear: Option<real>, hands: bool)

  /** The drowsiness counter after a frame, and the alerts the frame raised. */
  datatype StageOut = StageOut(counter: nat, alerts: seq<string>)

  /** One driver-mode frame. */
  function DriverStep(counter: nat, ear: Option<real>): (r: StageOut)
    ensures counter < DrowsyLimit ==> r.counter < DrowsyLimit
    ensures ear.None? ==> r == StageOut(counter, [])
    ensures r.alerts == [] || r.alerts == [DrowsyAlert]
    ensures r.alerts != [] <==> ear.Some? && ear.value < EarThreshold && counter + 1 >= DrowsyLimit
    ensures r.alerts != [] ==> r.counter == 0
    ensures ear.Some? && r.alerts == [] ==>
      r.counter == if ear.value < EarThreshold then counter + 1 else 0
  {
    match ear
    case None => StageOut(counter, [])
    case Some(e) =>
      var c := if e < EarThreshold then counter + 1 else 0;
      if c >= DrowsyLimit then StageOut(0, [DrowsyAlert]) else StageOut(c, [])
  }

  /** One frame of the secondary stage under mode. */
  function SecondaryStep(mode: Mode, counter: nat, obs: Observation): (r: StageOut)
    ensures mode.Driver? ==> r == DriverStep(counter, obs.ear)
    ensures mode.Cargo? ==> r.counter == counter
    ensures mode.Cargo? ==> (r.alerts != [] <==> obs.hands) && (r.alerts == [] || r.alerts == [CargoAlert])
  {
    match mode
    case Driver => DriverStep(counter, obs.ear)
    case Cargo => StageOut(counter, if obs.hands then [CargoAlert] else [])
  }

  /** One consumed frame: the mode read for it and what the models saw in it. */
  datatype Sample = Sample(mode: Mode, obs: Observation)

  /** The secondary stage over a run of frames from a given counter. */
  function SecondaryTrace(counter: nat, samples: seq<Sample>): (r: StageOut)
    ensures counter < DrowsyLimit ==> r.counter < DrowsyLimit
    ensures |r.alerts| <= |samples|
    decreases |samples|
  {
    if |samples| == 0 then StageOut(counter, [])
    else
      var before := SecondaryTrace(counter, samples[..|samples| - 1]);
      var last := samples[|samples| - 1];
      var step := SecondaryStep(last.mode, before.counter, last.obs);
      StageOut(step.counter, before.alerts + step.alerts)
  }

  lemma {:induction false} SecondaryTraceAppend(counter: nat, a: seq<Sample>, b: seq<Sample>)
    ensures var ta := SecondaryTrace(counter, a);
            var tb := SecondaryTrace(ta.counter, b);
            SecondaryTrace(counter, a + b) == StageOut(tb.counter, ta.alerts + tb.alerts)
    decreases |b|
  {
    if |b| == 0 {
      assert a + b == a;
    } else {
      var b' := b[..|b| - 1];
      assert (a + b)[..|a + b| - 1] == a + b';
      assert (a + b)[|a + b| - 1] == b[|b| - 1];
      SecondaryTraceAppend(counter, a, b');
    }
  }

  /** A driver-mode frame with a face whose eyes read below the threshold. */
  predicate LowReading(s: Sample) {
    s.mode.Driver? && s.obs.ear.Some? && s.obs.ear.value < EarThreshold
  }

  /** Sustained eye closure: n consecutive low readings from a reset counter
      raise one DRIVER DROWSY alert per full 12 frames and leave the counter at
      the remainder. */
  lemma {:induction false} SustainedClosure(samples: seq<Sample>)
    requires forall i :: 0 <= i < |samples| ==> LowReading(samples[i])
    ensures SecondaryTrace(0, samples) ==
      StageOut(|samples| % DrowsyLimit, seq(|samples| / DrowsyLimit, _ => DrowsyAlert))
    decreases |samples|
  {
    var n := |samples|;
    if n != 0 {
      var pre := samples[..n - 1];
      SustainedClosure(pre);
      var m := n - 1;
      assert LowReading(samples[n - 1]);
      if m % 12 == 11 {
        assert n % 12 == 0 && n / 12 == m / 12 + 1;
        assert seq(n / 12, _ => DrowsyAlert) == seq(m / 12, _ => DrowsyAlert) + [DrowsyAlert];
      } else {
        assert n % 12 == m % 12 + 1 && n / 12 == m / 12;
      }
    }
  }

  /** Twelve consecutive low readings raise exactly one alert and reset the counter. */
  lemma TwelveLowReadingsAlertOnce(samples: seq<Sample>)
    requires |samples| == DrowsyLimit
    requires forall i :: 0 <= i < |samples| ==> LowReading(samples[i])
    ensures SecondaryTrace(0, samples) == StageOut(0, [DrowsyAlert])
  {
    SustainedClosure(samples);
    assert seq(1, _ => DrowsyAlert) == [DrowsyAlert];
  }

  /** Eleven low readings and then an open-eyed one raise no alert: a transient
      dip does not trigger, and the counter is back to 0. */
  lemma ElevenLowThenOpenNoAlert(samples: seq<Sample>, open: Sample)
    requires |samples| == DrowsyLimit - 1
    requires forall i :: 0 <= i < |samples| ==> LowReading(samples[i])
    requires open.mode.Driver? && open.obs.ear.Some? && open.obs.ear.value >= EarThreshold
    ensures SecondaryTrace(0, samples + [open]) == StageOut(0, [])
  {
    SustainedClosure(samples);
    assert (samples + [open])[..|samples|] == samples;
    assert seq(0, _ => DrowsyAlert) == [];
  }

  /** In driver mode, frames without a face leave the counter where it was and
      raise nothing. */
  lemma {:induction false} NoFaceHoldsCounter(counter: nat, samples: seq<Sample>)
    requires forall i :: 0 <= i < |samples| ==> samples[i].mode.Driver? && samples[i].obs.ear.None?
    ensures SecondaryTrace(counter, samples) == StageOut(counter, [])
    decreases |samples|
  {
    if |samples| != 0 {
      NoFaceHoldsCounter(counter, samples[..|samples| - 1]);
    }
  }

  /** The number of samples in which a hand is seen. */
  function HandFrames(samples: seq<Sample>): (n: nat)
    ensures n <= |samples|
    decreases |samples|
  {
    if |samples| == 0 then 0
    else HandFrames(samples[..|samples| - 1]) + (if samples[|samples| - 1].obs.hands then 1 else 0)
  }

  /** Cargo mode has no debounce: a run of cargo frames raises one alert per
      frame with a hand, and leaves the drowsiness counter untouched. */
  lemma {:induction false} CargoAlertsEveryHandFrame(counter: nat, samples: seq<Sample>)
    requires forall i :: 0 <= i < |samples| ==> samples[i].mode.Cargo?
    ensures SecondaryTrace(counter, samples) ==
      StageOut(counter, seq(HandFrames(samples), _ => CargoAlert))
    decreases |samples|
  {
    if |samples| != 0 {
      var pre := samples[..|samples| - 1];
      CargoAlertsEveryHandFrame(counter, pre);
      if samples[|samples| - 1].obs.hands {
        assert seq(HandFrames(samples), _ => CargoAlert) == seq(HandFrames(pre), _ => CargoAlert) + [CargoAlert];
      } else {
        assert seq(HandFrames(pre), _ => CargoAlert) + [] == seq(HandFrames(pre), _ => CargoAlert);
      }
    }
  }

  /** The end-to-end scenario: twelve low readings in driver mode, then, after
      switching to cargo mode, one frame with a hand. Exactly one drowsiness
      alert, then exactly one cargo alert and no drowsiness alert after the
      switch. */
  lemma DriverThenCargo(lows: seq<Sample>, intrusion: Sample)
    requires |lows| == DrowsyLimit
    requires forall i :: 0 <= i < |lows| ==> LowReading(lows[i])
    requires intrusion.mode.Cargo? && intrusion.obs.hands
    ensures SecondaryTrace(0, lows + [intrusion]) == StageOut(0, [DrowsyAlert, CargoAlert])
  {
    TwelveLowReadingsAlertOnce(lows);
    assert (lows + [intrusion])[..|lows|] == lows;
  }

  /** second_loop: consumes second_q, publishes to second_d. */
  class SecondaryStage {
    const input: Link<Frame>
    const display: Link<Frame>
    const outbox: Outbox
    var drowsyCounter: nat

    ghost predicate Valid()
      reads this, input, display
    {
      input != display && input.Valid() && display.Valid() && drowsyCounter < DrowsyLimit
    }

    constructor (input: Link<Frame>, display: Link<Frame>, outbox: Outbox)
      requires input != display && input.Valid() && display.Valid()
      ensures this.input == input && this.display == display && this.outbox == outbox
      ensures Valid() && drowsyCounter == 0
    {
      this.input := input;
      this.display := display;
      this.outbox := outbox;
      drowsyCounter := 0;
    }

    /** One pass of the loop: take a frame (None when the link is empty, where
        the system waits), react to what the models see in it under the mode
        read for this frame, and publish it to the display link. */
    method Step(mode: Mode, see: Frame -> Observation) returns (consumed: Option<Frame>)
      requires Valid()
      modifies this`drowsyCounter, input, display, outbox
      ensures Valid()
      ensures consumed.None? <==> |old(input.items)| == 0
      ensures consumed.None? ==>
        drowsyCounter == old(drowsyCounter) && input.items == old(input.items) &&
        display.items == old(display.items) && outbox.events == old(outbox.events)
      ensures consumed.Some? ==>
        consumed.value == old(input.items)[0] && input.items == old(input.items)[1..] &&
        display.items == [consumed.value] &&
        var r := SecondaryStep(mode, old(drowsyCounter), see(consumed.value));
        drowsyCounter == r.counter && outbox.events == old(outbox.events) + AlertsFor(r.alerts)
    {
      consumed := input.Get();
      if consumed.None? {
        return;
      }
      var f := consumed.value;
      var obs := see(f);
      match mode {
        case Driver =>
          if obs.ear.Some? {
            var e := obs.ear.value;
            drowsyCounter := if e < EarThreshold then drowsyCounter + 1 else 0;
            if drowsyCounter >= DrowsyLimit {
              outbox.SendAlert(DrowsyAlert);
              drowsyCounter := 0;
            }
          }
        case Cargo =>
          if obs.hands {
            outbox.SendAlert(CargoAlert);
          }
      }
      var _ := display.Put(f);
    }
  }

  /** road_loop: consumes road_q, publishes to road_d. Object detection and the
      boxes drawn on the frame are not modelled. */
  class RoadStage {
    const input: Link<Frame>
    const display: Link<Frame>

    ghost predicate Valid()
      reads this, input, display
    {
      input != display && input.Valid() && display.Valid()
    }

    constructor (input: Link<Frame>, display: Link<Frame>)
      requires input != display && input.Valid() && display.Valid()
      ensures this.input == input && this.display == display && Valid()
    {
      this.input := input;
      this.display := display;
    }

    method Step() returns (consumed: Option<Frame>)
      requires Valid()
      modifies input, display
      ensures Valid()
      ensures consumed.None? <==> |old(input.items)| == 0
      ensures consumed.None? ==> input.items == old(input.items) && display.items == old(display.items)
      ensures consumed.Some? ==>
        consumed.value == old(input.items)[0] && input.items == old(input.items)[1..] &&
        display.items == [consumed.value]
    {
      consumed := input.Get();
      if consumed.Some? {
        var _ := display.Put(consumed.value);
      }
    }
  }
}

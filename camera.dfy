/** A camera source (class Cam): owns one capture handle, feeds its frames into a
    link, and reopens the device when it fails. The loop of the thread is
    modelled one pass at a time; what the hardware answers on each pass is an
    input. */
module Camera {
  import opened Wrappers
  import opened Fleet
  import opened Events
  import opened FrameLink

  /** A capture handle on one physical camera; open turns false once released. */
  datatype Capture = Capture(device: int, open: bool)

  /** What the hardware answers one pass of the loop: whether opening the device
      succeeds (asked when there is no handle) and what a read returns (asked
      when there is one). */
  datatype Probe = Probe(opens: bool, grabbed: Option<Frame>)

  datatype CamState = CamState(cap: Option<Capture>, running: bool)

  /** What the capture loop sees between two of its passes: one pass with the
      given hardware answers, or a stop() from another thread. */
  datatype CamInput = Pass(probe: Probe) | StopRequest

  /** The state after some passes, the events they sent and the frames they put. */
  datatype CamOut = CamOut(state: CamState, events: seq<Event>, frames: seq<Frame>)

  function FailAlert(name: string): string {
    name + " CAMERA FAIL"
  }

  /** init(): open the device; when it does not open, drop the handle and alert.
      Every failed attempt alerts: repeats are not suppressed. */
  function Acquire(idx: int, name: string, opens: bool): (r: (Option<Capture>, seq<Event>))
    ensures r.0.Some? <==> opens
    ensures r.0.Some? ==> r.0.value == Capture(idx, true)
    ensures Notices(r.1) == if opens then [] else [FailAlert(name)]
  {
    if opens then (Some(Capture(idx, true)), [])
    else (None, AlertEvents(FailAlert(name)))
  }

  /** stop(): clear the running flag and release the handle. The released
      handle stays in the field. */
  function Halt(s: CamState): (r: CamState)
    ensures !r.running
    ensures r.cap.Some? <==> s.cap.Some?
    ensures r.cap.Some? ==> r.cap.value == Capture(s.cap.value.device, false)
  {
    CamState(if s.cap.Some? then Some(s.cap.value.(open := false)) else None, false)
  }

  /** One pass of run(): nothing once running is false; otherwise retry init()
      when there is no handle, drop the handle when a read fails, and put the
      frame newest-wins when a read succeeds. */
  function Tick(idx: int, name: string, s: CamState, p: Probe): (r: CamOut)
    ensures !s.running ==> r == CamOut(s, [], [])
    ensures r.state.running == s.running
    ensures |r.frames| <= 1
    ensures r.frames != [] ==> s.running && s.cap.Some? && p.grabbed == Some(r.frames[0]) && r.state == s
    ensures s.running && s.cap.None? ==>
      r.frames == [] && (r.state.cap.Some? <==> p.opens) &&
      Notices(r.events) == (if p.opens then [] else [FailAlert(name)])
    ensures s.running && s.cap.Some? ==> r.events == []
    ensures s.running && s.cap.Some? && p.grabbed.None? ==> r.state.cap == None && r.frames == []
    ensures s.running && s.cap.Some? && p.grabbed.Some? ==> r == CamOut(s, [], [p.grabbed.value])
  {
    if !s.running then CamOut(s, [], [])
    else if s.cap.None? then
      var a := Acquire(idx, name, p.opens);
      CamOut(CamState(a.0, true), a.1, [])
    else if p.grabbed.None? then CamOut(CamState(None, true), [], [])
    else CamOut(s, [], [p.grabbed.value])
  }

  /** The passes and stops of inputs, in order, from state s. */
  function Trace(idx: int, name: string, s: CamState, inputs: seq<CamInput>): (r: CamOut)
    ensures |r.frames| <= |inputs|
    decreases |inputs|
  {
    if |inputs| == 0 then CamOut(s, [], [])
    else
      var before := Trace(idx, name, s, inputs[..|inputs| - 1]);
      match inputs[|inputs| - 1]
      case StopRequest => CamOut(Halt(before.state), before.events, before.frames)
      case Pass(p) =>
        var t := Tick(idx, name, before.state, p);
        CamOut(t.state, before.events + t.events, before.frames + t.frames)
  }

  /** One pass per probe. */
  function Passes(probes: seq<Probe>): seq<CamInput> {
    seq(|probes|, i requires 0 <= i < |probes| => Pass(probes[i]))
  }

  /** Running a trace in two pieces is running it whole. */
  lemma {:induction false} TraceAppend(idx: int, name: string, s: CamState, a: seq<CamInput>, b: seq<CamInput>)
    ensures var ta := Trace(idx, name, s, a);
            var tb := Trace(idx, name, ta.state, b);
            Trace(idx, name, s, a + b) == CamOut(tb.state, ta.events + tb.events, ta.frames + tb.frames)
    decreases |b|
  {
    var ta := Trace(idx, name, s, a);
    if |b| == 0 {
      assert a + b == a;
    } else {
      var b' := b[..|b| - 1];
      var ab := a + b;
      assert ab[..|ab| - 1] == a + b';
      assert ab[|ab| - 1] == b[|b| - 1];
      TraceAppend(idx, name, s, a, b');
      var before := Trace(idx, name, s, a + b');
      var tb' := Trace(idx, name, ta.state, b');
      assert before == CamOut(tb'.state, ta.events + tb'.events, ta.frames + tb'.frames);
      match b[|b| - 1]
      case StopRequest =>
      case Pass(p) =>
        var t := Tick(idx, name, tb'.state, p);
        assert ta.events + tb'.events + t.events == ta.events + (tb'.events + t.events);
        assert ta.frames + tb'.frames + t.frames == ta.frames + (tb'.frames + t.frames);
    }
  }

  /** Once stopped, a source sends nothing and puts nothing, whatever happens next. */
  lemma {:induction false} StoppedStaysSilent(idx: int, name: string, s: CamState, inputs: seq<CamInput>)
    requires !s.running
    ensures var t := Trace(idx, name, s, inputs);
            !t.state.running && t.events == [] && t.frames == []
    decreases |inputs|
  {
    if |inputs| != 0 {
      StoppedStaysSilent(idx, name, s, inputs[..|inputs| - 1]);
    }
  }

  /** A stopped source that only sees passes does not change at all. */
  lemma {:induction false} IdleWhenStopped(idx: int, name: string, s: CamState, probes: seq<Probe>)
    requires !s.running
    ensures Trace(idx, name, s, Passes(probes)) == CamOut(s, [], [])
    decreases |probes|
  {
    if |probes| != 0 {
      var ps := probes[..|probes| - 1];
      assert Passes(probes)[..|probes| - 1] == Passes(ps);
      IdleWhenStopped(idx, name, s, ps);
    }
  }

  /** After a stop(), the loop condition is false: no frame is put and no alert
      is sent after it, whatever the hardware does. */
  lemma {:induction false} NothingAfterStop(idx: int, name: string, s: CamState, a: seq<CamInput>, b: seq<CamInput>)
    ensures var whole := Trace(idx, name, s, a + [StopRequest] + b);
            var upTo := Trace(idx, name, s, a);
            whole.events == upTo.events && whole.frames == upTo.frames && !whole.state.running
  {
    var ta := Trace(idx, name, s, a + [StopRequest]);
    assert (a + [StopRequest])[..|a + [StopRequest]| - 1] == a;
    StoppedStaysSilent(idx, name, ta.state, b);
    TraceAppend(idx, name, s, a + [StopRequest], b);
  }

  /** One pass of run() as written when a stop() from another thread lands
      inside it, after the loop condition was read: during the retry sleep,
      before init(); or between the read and what follows it. The pass then
      finishes as if nothing had happened. */
  function TickInterrupted(idx: int, name: string, s: CamState, p: Probe): (r: CamOut)
    requires s.running
    ensures !r.state.running
    ensures s.cap.None? ==>
      r.frames == [] && (r.state.cap == Some(Capture(idx, true)) <==> p.opens) &&
      Notices(r.events) == (if p.opens then [] else [FailAlert(name)])
    ensures s.cap.Some? && p.grabbed.Some? ==>
      r.frames == [p.grabbed.value] && r.events == [] && r.state == Halt(s)
  {
    var h := Halt(s);
    if s.cap.None? then
      var a := Acquire(idx, name, p.opens);
      CamOut(CamState(a.0, h.running), a.1, [])
    else if p.grabbed.None? then CamOut(CamState(None, false), [], [])
    else CamOut(h, [], [p.grabbed.value])
  }

  /** A stop inside a pass breaks what a stop between passes guarantees. During
      the retry sleep, it is followed by an init() that either leaves a stopped
      source holding an open handle nobody will release, or sends a CAMERA FAIL
      alert after the stop. Between a read and the put, it is followed by one
      more frame. A stop just before the same pass does none of these. */
  lemma StopInsidePass(idx: int, name: string, f: Frame)
    ensures var t := TickInterrupted(idx, name, CamState(None, true), Probe(true, None));
            t.state == CamState(Some(Capture(idx, true)), false) &&
            Trace(idx, name, t.state, [Pass(Probe(true, None))]).state == t.state
    ensures Notices(TickInterrupted(idx, name, CamState(None, true), Probe(false, None)).events) == [FailAlert(name)]
    ensures TickInterrupted(idx, name, CamState(Some(Capture(idx, true)), true), Probe(true, Some(f))).frames == [f]
    ensures Trace(idx, name, CamState(None, true), [StopRequest, Pass(Probe(false, None))]) ==
            CamOut(CamState(None, false), [], [])
  {
  }

  /** The pass as evidently intended: run() reads running again after the
      sleep and after the read, so a stop that lands inside a pass ends it on
      the spot, exactly as if the stop had come just before the pass. */
  function TickRechecked(idx: int, name: string, s: CamState, p: Probe): (r: CamOut)
    requires s.running
    ensures !r.state.running && r.events == [] && r.frames == []
    ensures r.state.cap.Some? ==> !r.state.cap.value.open
  {
    CamOut(Halt(s), [], [])
  }

  /** The rechecked pass is the stop followed by the pass, as Trace orders them;
      so NothingAfterStop holds of it. */
  lemma {:induction false} RecheckedIsStopFirst(idx: int, name: string, s: CamState, p: Probe)
    requires s.running
    ensures TickRechecked(idx, name, s, p) == Trace(idx, name, s, [StopRequest, Pass(p)])
  {
    var two := [StopRequest, Pass(p)];
    assert two[..1] == [StopRequest];
    assert [StopRequest][..0] == [];
  }

  /** The frames a run of reads returns, in order. */
  function Grabbed(probes: seq<Probe>): seq<Frame>
    requires forall i :: 0 <= i < |probes| ==> probes[i].grabbed.Some?
  {
    seq(|probes|, i requires 0 <= i < |probes| => probes[i].grabbed.value)
  }

  /** A running source with an open handle puts every frame it reads, in order,
      sends nothing and keeps its handle; so the link ends up holding the last
      frame read. */
  lemma {:induction false} ReadsDeliverEveryFrame(idx: int, name: string, s: CamState, probes: seq<Probe>)
    requires s.running && s.cap.Some?
    requires forall i :: 0 <= i < |probes| ==> probes[i].grabbed.Some?
    ensures Trace(idx, name, s, Passes(probes)) == CamOut(s, [], Grabbed(probes))
    ensures |probes| != 0 ==>
      Latest([], Trace(idx, name, s, Passes(probes)).frames) == [probes[|probes| - 1].grabbed.value]
    decreases |probes|
  {
    if |probes| != 0 {
      var ps := probes[..|probes| - 1];
      assert Passes(probes)[..|probes| - 1] == Passes(ps);
      ReadsDeliverEveryFrame(idx, name, s, ps);
      assert Grabbed(probes) == Grabbed(ps) + [probes[|probes| - 1].grabbed.value];
    }
  }

  /** A device that keeps failing to open is reported on every attempt: n failed
      attempts send n CAMERA FAIL alerts and put no frame. */
  lemma {:induction false} EveryFailedOpenAlerts(idx: int, name: string, probes: seq<Probe>)
    requires forall i :: 0 <= i < |probes| ==> !probes[i].opens
    ensures var t := Trace(idx, name, CamState(None, true), Passes(probes));
            t.state == CamState(None, true) && t.frames == [] &&
            Notices(t.events) == seq(|probes|, _ => FailAlert(name))
    decreases |probes|
  {
    var s := CamState(None, true);
    if |probes| != 0 {
      var ps := probes[..|probes| - 1];
      assert Passes(probes)[..|probes| - 1] == Passes(ps);
      EveryFailedOpenAlerts(idx, name, ps);
      var before := Trace(idx, name, s, Passes(ps));
      var t := Tick(idx, name, before.state, probes[|probes| - 1]);
      NoticesAppend(before.events, t.events);
      assert seq(|probes|, _ => FailAlert(name)) == seq(|ps|, _ => FailAlert(name)) + [FailAlert(name)];
    }
  }

  /** One more pass extends the trace by one Tick. */
  lemma PassesStep(idx: int, name: string, s: CamState, probes: seq<Probe>, i: nat)
    requires i < |probes|
    ensures var t := Trace(idx, name, s, Passes(probes[..i]));
            var k := Tick(idx, name, t.state, probes[i]);
            Trace(idx, name, s, Passes(probes[..i + 1])) ==
              CamOut(k.state, t.events + k.events, t.frames + k.frames)
  {
    var ps := Passes(probes[..i + 1]);
    assert ps[..i] == Passes(probes[..i]);
    assert ps[i] == Pass(probes[i]);
  }

  /** When the loop leaves early because the source was stopped, the passes it
      skips would have changed nothing. */
  lemma PassesRest(idx: int, name: string, s: CamState, probes: seq<Probe>, i: nat)
    requires i <= |probes|
    requires i < |probes| ==> !Trace(idx, name, s, Passes(probes[..i])).state.running
    ensures Trace(idx, name, s, Passes(probes)) == Trace(idx, name, s, Passes(probes[..i]))
  {
    assert Passes(probes) == Passes(probes[..i]) + Passes(probes[i..]);
    var t := Trace(idx, name, s, Passes(probes[..i]));
    if i < |probes| {
      IdleWhenStopped(idx, name, t.state, probes[i..]);
    } else {
      assert Passes(probes[i..]) == [];
    }
    TraceAppend(idx, name, s, Passes(probes[..i]), Passes(probes[i..]));
  }

  /** A source claiming or giving up the camera slot it was created for. */
  datatype Binding = Bind(device: int) | Unbind(device: int)

  /** The order in which the sources created for one slot claimed it (when
      created) and gave it up (when stopped). Bookkeeping of the model only:
      it is written by the sources themselves and read by the controller's
      invariant. */
  class Claims {
    ghost var log: seq<Binding>

    constructor ()
      ensures log == []
    {
      log := [];
    }
  }

  /** The camera thread Cam(idx, q, name). */
  class Cam {
    const idx: int
    const name: string
    const link: Link<Frame>
    const outbox: Outbox
    ghost const claims: Claims
    var cap: Option<Capture>
    var running: bool
    var started: bool

    function State(): CamState
      reads this
    {
      CamState(cap, running)
    }

    /** Cam(idx, q, name): claims its slot, then tries init() once (opens says
        whether the device opened); running, not yet started. */
    constructor (idx: int, link: Link<Frame>, name: string, outbox: Outbox, ghost claims: Claims, opens: bool)
      modifies outbox, claims
      ensures this.idx == idx && this.link == link && this.name == name && this.outbox == outbox
      ensures this.claims == claims && claims.log == old(claims.log) + [Bind(idx)]
      ensures running && !started
      ensures cap == Acquire(idx, name, opens).0
      ensures outbox.events == old(outbox.events) + Acquire(idx, name, opens).1
    {
      this.idx := idx;
      this.link := link;
      this.name := name;
      this.outbox := outbox;
      this.claims := claims;
      cap := None;
      running := true;
      started := false;
      new;
      claims.log := claims.log + [Bind(idx)];
      Init(opens);
    }

    method Init(opens: bool)
      modifies this`cap, outbox
      ensures cap == Acquire(idx, name, opens).0
      ensures outbox.events == old(outbox.events) + Acquire(idx, name, opens).1
    {
      cap := Some(Capture(idx, opens));
      if !cap.value.open {
        cap := None;
        outbox.SendAlert(FailAlert(name));
      }
    }

    /** Thread.start(): a thread can be started once. */
    method Start()
      requires !started
      modifies this`started
      ensures started
    {
      started := true;
    }

    method Stop()
      modifies this`running, this`cap, claims
      ensures State() == Halt(old(State()))
      ensures claims.log == old(claims.log) + [Unbind(idx)]
    {
      claims.log := claims.log + [Unbind(idx)];
      running := false;
      if cap.Some? {
        cap := Some(cap.value.(open := false));
      }
    }

    /** One pass of the body of run()'s loop, taken when running is true. */
    method Step(p: Probe)
      requires link.Valid()
      modifies this`cap, link, outbox
      ensures link.Valid()
      ensures var t := Tick(idx, name, old(State()), p);
              State() == t.state && outbox.events == old(outbox.events) + t.events &&
              link.items == Latest(old(link.items), t.frames)
    {
      if !running {
        return;
      }
      if cap.None? {
        Init(p.opens);
        return;
      }
      match p.grabbed
      case None =>
        cap := None;
      case Some(f) =>
        var _ := link.Put(f);
    }

    /** run(): passes of the loop while running is true, one per probe. */
    method Run(probes: seq<Probe>)
      requires link.Valid()
      modifies this`cap, link, outbox
      ensures link.Valid()
      ensures var t := Trace(idx, name, old(State()), Passes(probes));
              State() == t.state && outbox.events == old(outbox.events) + t.events &&
              link.items == Latest(old(link.items), t.frames)
    {
      ghost var s0, q0, e0 := State(), link.items, outbox.events;
      var i := 0;
      while i < |probes| && running
        invariant 0 <= i <= |probes|
        invariant link.Valid()
        invariant running == s0.running
        invariant var t := Trace(idx, name, s0, Passes(probes[..i]));
                  State() == t.state && outbox.events == e0 + t.events &&
                  link.items == Latest(q0, t.frames)
      {
        PassesStep(idx, name, s0, probes, i);
        Step(probes[i]);
        i := i + 1;
      }
      PassesRest(idx, name, s0, probes, i);
    }
  }
}

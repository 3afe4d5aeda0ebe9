/** The mode controller: the global MODE, the secondary camera thread, and the
    two operations that change them, set_mode (the dashboard's /set/<mode>
    route) and switch_secondary_camera. */
module ModeControl {
  import opened Wrappers
  import opened Fleet
  import opened Events
  import opened FrameLink
  import opened Camera

  /** Every new source is bound only after the previous one was unbound: binds
      and unbinds alternate, starting with a bind, and each unbind releases the
      device bound just before it. */
  ghost predicate Exclusive(h: seq<Binding>) {
    && (forall i :: 0 <= i < |h| ==> (h[i].Bind? <==> i % 2 == 0))
    && (forall i :: 0 < i < |h| && h[i].Unbind? ==> h[i].device == h[i - 1].device)
  }

  /** How many sources hold the slot after history h. */
  function LiveSources(h: seq<Binding>): int
    decreases |h|
  {
    if |h| == 0 then 0
    else LiveSources(h[..|h| - 1]) + (if h[|h| - 1].Bind? then 1 else -1)
  }

  /** Never two live secondary sources: along an exclusive history the slot is
      held by at most one source, and by one exactly after a bind. */
  lemma {:induction false} AtMostOneLiveSource(h: seq<Binding>)
    requires Exclusive(h)
    ensures LiveSources(h) == |h| % 2
    ensures 0 <= LiveSources(h) <= 1
    decreases |h|
  {
    if |h| != 0 {
      var pre := h[..|h| - 1];
      assert forall i :: 0 <= i < |pre| ==> pre[i] == h[i];
      AtMostOneLiveSource(pre);
    }
  }

  /** Releasing the live source keeps a history exclusive. */
  lemma ReleaseKeepsExclusive(h: seq<Binding>, d: int)
    requires Exclusive(h) && |h| % 2 == 1 && h[|h| - 1] == Bind(d)
    ensures Exclusive(h + [Unbind(d)])
  {
  }

  /** Binding while no source is live keeps a history exclusive. */
  lemma BindKeepsExclusive(h: seq<Binding>, d: int)
    requires Exclusive(h) && |h| % 2 == 0
    ensures Exclusive(h + [Bind(d)])
  {
  }

  /** secondary_thread and the secondary sources still running, each source
      named by the order in which it was created. */
  datatype Slot = Slot(held: Option<nat>, live: set<nat>)

  /** At most one secondary source runs, and it is the one the slot holds. */
  predicate Single(sl: Slot) {
    sl.live == if sl.held.Some? then {sl.held.value} else {}
  }

  /** The first half of switch_secondary_camera: stop the source the request
      read from the slot, if there was one. */
  function StopHalf(sl: Slot, seen: Option<nat>): (r: Slot)
    ensures r.held == sl.held
    ensures seen.Some? ==> seen.value !in r.live
    ensures r.live <= sl.live && sl.live - r.live <= (if seen.Some? then {seen.value} else {})
  {
    Slot(sl.held, if seen.Some? then sl.live - {seen.value} else sl.live)
  }

  /** The second half: create the source numbered n, store it in the slot and
      start it. */
  function CreateHalf(sl: Slot, n: nat): (r: Slot)
    ensures r.held == Some(n) && n in r.live && r.live - {n} == sl.live - {n}
  {
    Slot(Some(n), sl.live + {n})
  }

  /** One whole switch, with no other request in between. */
  function SwitchWhole(sl: Slot, n: nat): Slot {
    CreateHalf(StopHalf(sl, sl.held), n)
  }

  /** Two /set requests as the threaded server can run them: both read the slot
      before either has replaced its source, both stop that source, then each
      creates its own. */
  function RacedSwitches(sl: Slot, a: nat, b: nat): Slot {
    var seen := sl.held;
    CreateHalf(CreateHalf(StopHalf(StopHalf(sl, seen), seen), a), b)
  }

  /** Switches one after the other keep a single running source, the one held. */
  lemma SwitchWholeKeepsSingle(sl: Slot, n: nat)
    requires Single(sl)
    ensures Single(SwitchWhole(sl, n))
    ensures SwitchWhole(sl, n).live == {n}
  {
  }

  /** Raced switches leave two sources running on second_q, one of them no
      longer held by the slot, so no later switch ever stops it; the same two
      requests one after the other leave one. */
  lemma RacedSwitchesLeaveTwoSources()
    ensures RacedSwitches(Slot(Some(0), {0}), 1, 2) == Slot(Some(2), {1, 2})
    ensures !Single(RacedSwitches(Slot(Some(0), {0}), 1, 2))
    ensures SwitchWhole(SwitchWhole(Slot(Some(0), {0}), 1), 2) == Slot(Some(2), {2})
  {
  }

  class Controller {
    var mode: Mode
    var secondary: Cam?
    ghost var retired: seq<Cam>
    const secondQ: Link<Frame>
    const outbox: Outbox
    ghost const claims: Claims

    /** What holds between and inside the operations: the secondary source, once
        there is one, is wired to second_q, runs, and is the one holder of the
        slot; every source it replaced is stopped. */
    ghost predicate Wired()
      reads this, secondary, retired, claims
    {
      && Exclusive(claims.log)
      && (secondary != null <==> |claims.log| % 2 == 1)
      && (forall c :: c in retired ==> !c.running)
      && (secondary != null ==>
            && secondary.link == secondQ && secondary.outbox == outbox && secondary.claims == claims
            && secondary.running && secondary.started
            && secondary !in retired
            && claims.log[|claims.log| - 1] == Bind(secondary.idx))
    }

    /** Between operations, the live source is the camera of the current mode. */
    ghost predicate Valid()
      reads this, secondary, retired, claims
    {
      Wired() && secondary != null &&
      secondary.idx == CameraIndex(mode) && secondary.name == CameraName(mode)
    }

    /** Start-up: MODE is "driver" and the secondary camera is switched to it
        (opens says whether that camera opens on the first attempt). */
    constructor (secondQ: Link<Frame>, outbox: Outbox, ghost claims: Claims, opens: bool)
      requires claims.log == []
      modifies outbox, claims
      ensures Valid() && mode == Driver && this.secondQ == secondQ && this.outbox == outbox
      ensures this.claims == claims
      ensures fresh(secondary) && retired == [] && claims.log == [Bind(DriverCam)]
      ensures var a := Acquire(DriverCam, "DRIVER", opens);
              secondary.cap == a.0 &&
              outbox.events == old(outbox.events) + a.1 + [Logged("SYSTEM", "MODE_CHANGE", "driver")]
    {
      mode := Driver;
      secondary := null;
      retired := [];
      this.secondQ := secondQ;
      this.outbox := outbox;
      this.claims := claims;
      new;
      SwitchSecondaryCamera(mode, opens);
    }

    /** switch_secondary_camera(m): stop the current source, if any, before
        creating the one for m on the same link; start it and log the change. */
    method SwitchSecondaryCamera(m: Mode, opens: bool)
      requires Wired()
      modifies this`secondary, this`retired, secondary, outbox, claims
      ensures Wired()
      ensures secondary != null && fresh(secondary)
      ensures secondary.idx == CameraIndex(m) && secondary.name == CameraName(m)
      ensures old(secondary) != null ==> old(secondary).State() == Halt(old(secondary.State()))
      ensures retired == old(retired) + (if old(secondary) == null then [] else [old(secondary)])
      ensures claims.log == old(claims.log) +
        (if old(secondary) == null then [] else [Unbind(old(secondary).idx)]) + [Bind(CameraIndex(m))]
      ensures var a := Acquire(CameraIndex(m), CameraName(m), opens);
              secondary.cap == a.0 &&
              outbox.events == old(outbox.events) + a.1 + [Logged("SYSTEM", "MODE_CHANGE", ModeName(m))]
    {
      if secondary != null {
        ReleaseKeepsExclusive(claims.log, secondary.idx);
        secondary.Stop();
        retired := retired + [secondary];
      }
      BindKeepsExclusive(claims.log, CameraIndex(m));
      var cam: Cam;
      match m {
        case Driver =>
          cam := new Cam(DriverCam, secondQ, "DRIVER", outbox, claims, opens);
        case Cargo =>
          cam := new Cam(CargoCam, secondQ, "CARGO", outbox, claims, opens);
      }
      secondary := cam;
      cam.Start();
      outbox.LogEvent("SYSTEM", "MODE_CHANGE", ModeName(m));
    }

    /** set_mode(requested): accept only "driver" or "cargo"; write MODE, then
        swap the camera. Anything else changes nothing. The reply names the
        mode in force afterwards. */
    method SetMode(requested: string, opens: bool) returns (reply: string)
      requires Valid()
      modifies this, secondary, outbox, claims
      ensures Valid()
      ensures reply == "Mode changed to " + ModeName(mode)
      ensures ParseMode(requested).None? ==>
        mode == old(mode) && secondary == old(secondary) && unchanged(old(secondary)) &&
        retired == old(retired) && claims.log == old(claims.log) && outbox.events == old(outbox.events)
      ensures ParseMode(requested).Some? ==>
        && mode == ParseMode(requested).value
        && fresh(secondary) && secondary.link == secondQ
        && !old(secondary).running
        && retired == old(retired) + [old(secondary)]
        && claims.log == old(claims.log) + [Unbind(old(secondary).idx), Bind(CameraIndex(mode))]
        && var a := Acquire(CameraIndex(mode), CameraName(mode), opens);
           secondary.cap == a.0 &&
           outbox.events == old(outbox.events) + a.1 + [Logged("SYSTEM", "MODE_CHANGE", requested)]
    {
      match ParseMode(requested) {
        case Some(m) =>
          mode := m;
          SwitchSecondaryCamera(m, opens);
        case None =>
      }
      reply := "Mode changed to " + ModeName(mode);
    }
  }
}

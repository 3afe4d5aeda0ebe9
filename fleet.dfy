/** Configuration and vocabulary shared by the pipeline: the physical camera
    indices, the operating modes of the secondary channel and the frames. */
module Fleet {
  import opened Wrappers

  const DriverCam: int := 0
  const RoadCam: int := 1
  const CargoCam: int := 2

  /** A captured image. Its pixels matter to the vision models only, which are
      inputs of this model. */
  datatype Frame = Frame(pixels: seq<int>)

  /** The purpose of the secondary camera and stage. The global MODE string only
      ever holds "driver" or "cargo": it starts as "driver" and set_mode writes
      it only after checking the requested name. */
  datatype Mode = Driver | Cargo

  /** The string the system stores in MODE for a mode. */
  function ModeName(m: Mode): (s: string)
    ensures ParseMode(s) == Some(m)
  {
    match m
    case Driver => "driver"
    case Cargo => "cargo"
  }

  /** The check set_mode applies to the requested name: only "driver" and
      "cargo" are accepted. */
  function ParseMode(s: string): (r: Option<Mode>)
    ensures r.Some? <==> s == "driver" || s == "cargo"
    ensures r.Some? ==> s == (if r.value.Driver? then "driver" else "cargo")
  {
    if s == "driver" then Some(Driver)
    else if s == "cargo" then Some(Cargo)
    else None
  }

  /** The physical camera a secondary source for mode m binds. */
  function CameraIndex(m: Mode): (i: int)
    ensures i != RoadCam
    ensures i == DriverCam <==> m == Driver
    ensures i == CargoCam <==> m == Cargo
  {
    match m
    case Driver => DriverCam
    case Cargo => CargoCam
  }

  /** The name a secondary source for mode m reports in its alerts. */
  function CameraName(m: Mode): string {
    match m
    case Driver => "DRIVER"
    case Cargo => "CARGO"
  }
}

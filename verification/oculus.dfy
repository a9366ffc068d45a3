/**
 * The LibOVR wrapper of pyvr/src/oculus.c: the module globals that share one
 * initialised LibOVR between controller instances (`IS_INITIALISED`,
 * `CONTROLLER_COUNT`), the controller's `__init__` and deallocation, and the
 * pose transform of `frame`.
 *
 * LibOVR is foreign code: what its calls return is an input (`Env`, `Pose`)
 * and the calls made are recorded in order (`LibCall`). `CONTROLLER_COUNT`
 * is a `size_t`, modelled as a 64-bit unsigned integer that wraps around.
 */
module Oculus {
  import opened Wrappers
  import opened Utils

  /** 2^64: the `size_t` arithmetic of `CONTROLLER_COUNT` is modulo this. */
  const SizeModulus: nat := 0x1_0000_0000_0000_0000

  const Success: int := 0
  const Failure: int := -1

  const DevicePrefix: string := "Cannot initialise Oculus device"
  const NoDevicePrefix: string := "Cannot initialise Oculus device (No device found)"
  const SdkPrefix: string := "Cannot initialise Oculus SDK: '"
  const SdkSuffix: string := "'\n(HINT: Is oculusd/ovrd running?)"

  /** An `ovrHmd` handle that is not NULL. */
  datatype Device = Device(id: nat)

  /** The LibOVR calls the wrapper makes. */
  datatype LibCall = Initialize | Detect | Create(index: int) | ConfigureTracking(device: Device)
                   | Destroy(device: Device) | Shutdown

  /** The module globals: is LibOVR initialised, and how many controllers use it. */
  datatype Globals = Globals(initialised: bool, count: nat)

  predicate ValidGlobals(g: Globals) {
    g.count < SizeModulus
  }

  /** A controller's fields: the device (None for NULL), the head factor and shift. */
  datatype Rift = Rift(device: Option<Device>, factor: real, shift: Vec3)

  /** A freshly allocated controller: the generic allocator zero-fills the struct. */
  function Allocated(): Rift {
    Rift(None, 0.0, Vec3(0.0, 0.0, 0.0))
  }

  /** The optional keyword arguments `device_index`, `head_factor`, `head_shift_x/y/z`. */
  datatype Args = Args(index: Option<int>, factor: Option<real>,
                       shiftX: Option<real>, shiftY: Option<real>, shiftZ: Option<real>)

  /**
   * What the foreign calls answer during one `__init__`: `ovr_Initialize`,
   * `ovrHmd_Detect`, the argument parser (None when it fails), `ovrHmd_Create`
   * and `ovrHmd_GetLastError`.
   */
  datatype Env = Env(initializeOk: bool, detected: bool, args: Option<Args>,
                     created: Option<Device>, lastError: string)

  /** An exception set while `__init__` runs: InitialisationError, or the argument parser's own. */
  datatype Raised = InitialisationError(message: string) | ArgumentError

  /** The outcome of one `__init__`. */
  datatype InitResult = InitResult(globals: Globals, rift: Rift, status: int,
                                   raised: seq<Raised>, calls: seq<LibCall>)

  function GetOr<T>(o: Option<T>, default: T): T {
    if o.Some? then o.value else default
  }

  /** The message `_oculus_raise_python_exception` builds (a NULL suffix taken as empty). */
  function Message(prefix: string, lastError: string, suffix: string): string {
    prefix + lastError + suffix
  }

  /**
   * The error labels of `__init__`, entered at a given one: each sets its
   * exception and falls through to the next, so every path ends with the
   * SDK message.
   */
  function ErrorsFrom(entry: nat, lastError: string): (r: seq<Raised>)
    requires 1 <= entry <= 3
    ensures |r| == entry
    ensures r[|r| - 1] == InitialisationError(Message(SdkPrefix, lastError, SdkSuffix))
  {
    var sdk := [InitialisationError(Message(SdkPrefix, lastError, SdkSuffix))];
    var noDevice := [InitialisationError(Message(NoDevicePrefix, lastError, ""))] + sdk;
    if entry == 1 then sdk
    else if entry == 2 then noDevice
    else [InitialisationError(Message(DevicePrefix, lastError, ""))] + noDevice
  }

  /**
   * `_oculus_raise_python_exception` as written: None when the suffix is
   * NULL, which `strncat` is given there although C leaves that undefined.
   */
  function RaiseAsWritten(prefix: string, lastError: string, suffix: Option<string>): (m: Option<string>)
    ensures m.Some? <==> suffix.Some?
    ensures m.Some? ==> prefix <= m.value && m.value[|prefix|..] == lastError + suffix.value
  {
    if suffix.None? then None else Some(Message(prefix, lastError, suffix.value))
  }

  /** The error labels of `__init__` in order: their message prefix and suffix (None for NULL). */
  const Labels: seq<(string, Option<string>)> :=
    [(DevicePrefix, None), (NoDevicePrefix, None), (SdkPrefix, Some(SdkSuffix))]

  /** Run through the labels: the exceptions set, or None once a message is undefined. */
  function RaiseAll(labels: seq<(string, Option<string>)>, lastError: string): Option<seq<Raised>>
  {
    if labels == [] then Some([])
    else
      var m := RaiseAsWritten(labels[0].0, lastError, labels[0].1);
      var rest := RaiseAll(labels[1..], lastError);
      if m.None? || rest.None? then None else Some([InitialisationError(m.value)] + rest.value)
  }

  /**
   * The error labels as written, entered at `entry` (1 for the SDK label,
   * 3 for the device label): the device and no-device labels pass a NULL
   * suffix.
   */
  function ErrorsAsWritten(entry: nat, lastError: string): Option<seq<Raised>>
    requires 1 <= entry <= 3
  {
    RaiseAll(Labels[3 - entry..], lastError)
  }

  /**
   * As written, only a failed `ovr_Initialize` reports a defined message;
   * with no headset attached (`ovrHmd_Detect` false) or a failed
   * `ovrHmd_Create` the message is built from a NULL suffix. The model
   * (`ErrorsFrom`) reads the NULL suffix as the empty string.
   */
  lemma NullSuffixUndefined(lastError: string)
    ensures ErrorsAsWritten(1, lastError) == Some(ErrorsFrom(1, lastError))
    ensures ErrorsAsWritten(2, lastError).None? && ErrorsAsWritten(3, lastError).None?
  {
    var sdk := Labels[2..];
    assert sdk == [(SdkPrefix, Some(SdkSuffix))];
    assert sdk[1..] == [];
    var m := Message(SdkPrefix, lastError, SdkSuffix);
    assert RaiseAll(sdk, lastError) == Some([InitialisationError(m)] + []);
    assert [InitialisationError(m)] + [] == [InitialisationError(m)];
  }

  /** Did this `__init__` get past `ovr_Initialize` (and so count itself)? */
  predicate PastSdk(g: Globals, env: Env) {
    g.initialised || env.initializeOk
  }

  /** `oculus_OculusRiftDK2_init` on the globals `g` and the controller `r`. */
  function InitStep(g: Globals, r: Rift, env: Env): InitResult
    requires ValidGlobals(g)
  {
    var sdkCalls := if g.initialised then [] else [Initialize];
    if !PastSdk(g, env) then
      InitResult(g, r.(device := None), Failure, ErrorsFrom(1, env.lastError), sdkCalls)
    else
      var g1 := Globals(true, (g.count + 1) % SizeModulus);
      var calls := sdkCalls + [Detect];
      if !env.detected then
        InitResult(g1, r.(device := None), Failure, ErrorsFrom(2, env.lastError), calls)
      else
        var defaults := Rift(r.device, 1.0, Vec3(0.0, 0.0, 0.0));
        if env.args.None? then
          InitResult(g1, defaults.(device := None), Failure, [ArgumentError], calls)
        else
          var a := env.args.value;
          var index := GetOr(a.index, 0);
          var given := Rift(r.device, GetOr(a.factor, 1.0),
                          Vec3(GetOr(a.shiftX, 0.0), GetOr(a.shiftY, 0.0), GetOr(a.shiftZ, 0.0)));
          if env.created.None? then
            InitResult(g1, given.(device := None), Failure, ErrorsFrom(3, env.lastError), calls + [Create(index)])
          else
            InitResult(g1, given.(device := env.created), Success, [],
                       calls + [Create(index), ConfigureTracking(env.created.value)])
  }

  /** The result of the deallocation: the new globals and the LibOVR calls made. */
  datatype DeallocResult = DeallocResult(globals: Globals, calls: seq<LibCall>)

  /** `oculus_OculusRiftDK2_dealloc`: destroy a live device, count down, shut down at zero. */
  function DeallocStep(g: Globals, r: Rift): DeallocResult
    requires ValidGlobals(g)
  {
    var destroy := if r.device.Some? then [Destroy(r.device.value)] else [];
    var count := (g.count - 1) % SizeModulus;
    if count == 0 then DeallocResult(Globals(false, 0), destroy + [Shutdown])
    else DeallocResult(Globals(g.initialised, count), destroy)
  }

  // ---------------------------------------------------------------------
  // Properties of __init__ and the deallocation

  /** Both steps keep the count a `size_t`. */
  lemma StepsKeepGlobalsValid(g: Globals, r: Rift, env: Env)
    requires ValidGlobals(g)
    ensures ValidGlobals(InitStep(g, r, env).globals)
    ensures ValidGlobals(DeallocStep(g, r).globals)
  {
  }

  /**
   * `ovr_Initialize` is called only while LibOVR is not initialised, and a
   * success sets the flag; a failure leaves the globals alone, leaves the
   * device NULL and reports the SDK message with status -1.
   */
  lemma InitInitialisesOnce(g: Globals, r: Rift, env: Env)
    requires ValidGlobals(g)
    ensures var res := InitStep(g, r, env);
      (Initialize in res.calls <==> !g.initialised) &&
      (res.globals.initialised <==> g.initialised || env.initializeOk) &&
      (!PastSdk(g, env) ==>
         res.globals == g && res.rift.device.None? && res.status == Failure &&
         res.raised == [InitialisationError(Message(SdkPrefix, env.lastError, SdkSuffix))])
  {
  }

  /**
   * Every `__init__` that gets past `ovr_Initialize` adds exactly one to the
   * count, whether detection, the arguments or the device creation then fail.
   */
  lemma InitCountsOnce(g: Globals, r: Rift, env: Env)
    requires ValidGlobals(g)
    ensures PastSdk(g, env) ==> InitStep(g, r, env).globals.count == (g.count + 1) % SizeModulus
    ensures !PastSdk(g, env) ==> InitStep(g, r, env).globals.count == g.count
  {
  }

  /**
   * `__init__` succeeds exactly when LibOVR is up, a device is detected, the
   * arguments parse and the device is created; then the controller holds
   * that device and tracking is configured on it. On every failure the
   * device is NULL and the status is -1.
   */
  lemma InitSucceedsExactly(g: Globals, r: Rift, env: Env)
    requires ValidGlobals(g)
    ensures var res := InitStep(g, r, env);
      (res.status == Success <==> PastSdk(g, env) && env.detected && env.args.Some? && env.created.Some?) &&
      (res.status == Success ==>
         res.rift.device == env.created && res.raised == [] &&
         res.calls[|res.calls| - 1] == ConfigureTracking(env.created.value)) &&
      (res.status != Success ==> res.status == Failure && res.rift.device.None?)
  {
  }

  /**
   * The defaults, applied once a device is detected: index 0, factor 1 and
   * no shift, each overridden only by an argument that is given.
   */
  lemma InitDefaults(g: Globals, r: Rift, env: Env)
    requires ValidGlobals(g) && PastSdk(g, env) && env.detected && env.args.Some?
    ensures var res := InitStep(g, r, env);
      var a := env.args.value;
      Create(if a.index.Some? then a.index.value else 0) in res.calls &&
      res.rift.factor == (if a.factor.Some? then a.factor.value else 1.0) &&
      (a.shiftX.None? ==> res.rift.shift.x == 0.0) &&
      (a.shiftY.None? ==> res.rift.shift.y == 0.0) &&
      (a.shiftZ.None? ==> res.rift.shift.z == 0.0)
  {
  }

  /**
   * The error labels fall through: whatever LibOVR step fails, the exception
   * left pending is the SDK message.
   */
  lemma InitReportsSdkMessageLast(g: Globals, r: Rift, env: Env)
    requires ValidGlobals(g)
    ensures var res := InitStep(g, r, env);
      res.status == Failure && res.raised != [ArgumentError] ==>
        res.raised != [] &&
        res.raised[|res.raised| - 1] == InitialisationError(Message(SdkPrefix, env.lastError, SdkSuffix))
  {
  }

  /**
   * The exceptions each failure sets, in order, with a NULL suffix read as
   * empty: a failed `ovr_Initialize` sets the SDK message alone; no headset
   * sets the no-device message, then the SDK message; a failed
   * `ovrHmd_Create` sets the device message before both.
   */
  lemma InitFailureMessages(g: Globals, r: Rift, env: Env)
    requires ValidGlobals(g)
    ensures var res := InitStep(g, r, env);
      var sdk := InitialisationError(Message(SdkPrefix, env.lastError, SdkSuffix));
      var noDevice := InitialisationError(Message(NoDevicePrefix, env.lastError, ""));
      var device := InitialisationError(Message(DevicePrefix, env.lastError, ""));
      (!PastSdk(g, env) ==> res.raised == [sdk]) &&
      (PastSdk(g, env) && !env.detected ==> res.raised == [noDevice, sdk]) &&
      (PastSdk(g, env) && env.detected && env.args.Some? && env.created.None? ==>
         res.raised == [device, noDevice, sdk])
  {
  }

  /** Deallocation destroys the device exactly when it is not NULL. */
  lemma DeallocDestroysLiveDevice(g: Globals, r: Rift)
    requires ValidGlobals(g)
    ensures var res := DeallocStep(g, r);
      (r.device.Some? ==> res.calls[0] == Destroy(r.device.value)) &&
      ((exists d :: Destroy(d) in res.calls) <==> r.device.Some?) &&
      (Shutdown in res.calls <==> res.globals.count == 0) &&
      (res.globals.count == 0 ==> !res.globals.initialised)
  {
  }

  /** The intended invariant of the globals: LibOVR is up exactly while someone uses it. */
  predicate Consistent(g: Globals) {
    ValidGlobals(g) && (g.initialised <==> g.count > 0)
  }

  /**
   * A counted controller's deallocation undoes its `__init__`: the globals
   * are back where they were, and LibOVR is shut down when it was the last.
   */
  lemma InitThenDeallocRestores(g: Globals, r: Rift, env: Env)
    requires Consistent(g) && g.count + 1 < SizeModulus && PastSdk(g, env)
    ensures var res := InitStep(g, r, env);
      var d := DeallocStep(res.globals, res.rift);
      d.globals == g && (Shutdown in d.calls <==> g.count == 0)
  {
  }

  // ---------------------------------------------------------------------
  // The size_t underflow

  /**
   * As written, a controller whose `ovr_Initialize` failed is still
   * deallocated with a decrement: from the start state the count wraps to
   * 2^64 - 1.
   */
  lemma FailedInitUnderflows(r: Rift, env: Env)
    requires !env.initializeOk
    ensures var res := InitStep(Globals(false, 0), r, env);
      res.status == Failure &&
      DeallocStep(res.globals, res.rift).globals == Globals(false, SizeModulus - 1)
  {
  }

  /**
   * After that underflow the next controller's count wraps to 0, and its
   * deallocation never shuts LibOVR down: the flag stays set with the count
   * at 2^64 - 1.
   */
  lemma UnderflowSkipsShutdown(r: Rift, env: Env)
    requires env.initializeOk && env.detected && env.args.Some? && env.created.Some?
    ensures var g := Globals(false, SizeModulus - 1);
      var res := InitStep(g, r, env);
      res.status == Success && Initialize in res.calls &&
      res.globals == Globals(true, 0) &&
      Shutdown !in DeallocStep(res.globals, res.rift).calls &&
      DeallocStep(res.globals, res.rift).globals == Globals(true, SizeModulus - 1)
  {
  }

  /**
   * The corrected deallocation: only a controller that got past
   * `ovr_Initialize` (`counted`) gives its count back.
   */
  function DeallocCorrected(g: Globals, r: Rift, counted: bool): DeallocResult
    requires ValidGlobals(g)
  {
    var destroy := if r.device.Some? then [Destroy(r.device.value)] else [];
    if !counted then DeallocResult(g, destroy)
    else
      var count := (g.count - 1) % SizeModulus;
      if count == 0 then DeallocResult(Globals(false, 0), destroy + [Shutdown])
      else DeallocResult(Globals(g.initialised, count), destroy)
  }

  /**
   * With the corrected deallocation every `__init__` followed by its
   * deallocation leaves consistent globals where they were, whether or not
   * `ovr_Initialize` succeeded, and shuts LibOVR down exactly when the last
   * counted controller goes.
   */
  lemma CorrectedInitThenDeallocRestores(g: Globals, r: Rift, env: Env)
    requires Consistent(g) && g.count + 1 < SizeModulus
    ensures var res := InitStep(g, r, env);
      var d := DeallocCorrected(res.globals, res.rift, PastSdk(g, env));
      Consistent(res.globals) && d.globals == g && Consistent(d.globals) &&
      (Shutdown in d.calls <==> PastSdk(g, env) && g.count == 0)
  {
  }

  /** The corrected deallocation keeps the globals consistent while a counted controller is alive. */
  lemma CorrectedDeallocConsistent(g: Globals, r: Rift, counted: bool)
    requires Consistent(g) && (counted ==> g.count > 0)
    ensures Consistent(DeallocCorrected(g, r, counted).globals)
    ensures DeallocCorrected(g, r, counted).globals.count <= g.count
  {
  }

  // ---------------------------------------------------------------------
  // frame

  /** An orientation quaternion (w, x, y, z). */
  datatype Quaternion = Quaternion(w: real, x: real, y: real, z: real)

  /** The head pose LibOVR reports. */
  datatype Pose = Pose(position: Vec3, orientation: Quaternion)

  /** The frame object: position tuple and orientation tuple. */
  datatype Frame = Frame(position: Vec3, orientation: Quaternion)

  /** The tracked position scaled by the head factor and moved by the head shift, componentwise. */
  function Placed(p: Vec3, factor: real, shift: Vec3): Vec3 {
    Vec3(p.x * factor + shift.x, p.y * factor + shift.y, p.z * factor + shift.z)
  }

  /** `frame` raises TrackingError (None) without a device. */
  function FrameOf(r: Rift, head: Pose): (f: Option<Frame>)
    ensures f.None? <==> r.device.None?
    ensures f.Some? ==> f.value.orientation == head.orientation
  {
    if r.device.None? then None
    else
      Some(Frame(Placed(head.position, r.factor, r.shift), head.orientation))
  }

  /** With a non-zero factor the reported position determines the tracked one. */
  lemma FrameInvertible(r: Rift, head: Pose)
    requires r.device.Some? && r.factor != 0.0
    ensures var p := FrameOf(r, head).value.position;
      head.position == Vec3((p.x - r.shift.x) / r.factor, (p.y - r.shift.y) / r.factor,
                            (p.z - r.shift.z) / r.factor)
  {
  }

  /** With the defaults the tracked position is reported as it is. */
  lemma DefaultFrameIsRaw(r: Rift, head: Pose)
    requires r.device.Some? && r.factor == 1.0 && r.shift == Vec3(0.0, 0.0, 0.0)
    ensures FrameOf(r, head) == Some(Frame(head.position, head.orientation))
  {
  }

  // ---------------------------------------------------------------------
  // The objects

  /** The module globals `IS_INITIALISED` and `CONTROLLER_COUNT`. */
  class LibOvr {
    var initialised: bool
    var count: nat

    function State(): Globals
      reads this
    {
      Globals(initialised, count)
    }

    /** The globals at module load. */
    constructor ()
      ensures State() == Globals(false, 0)
    {
      initialised := false;
      count := 0;
    }
  }

  /** An `OculusRiftDK2` controller. */
  class OculusRiftDK2 {
    var device: Option<Device>
    var headFactor: real
    var headShift: Vec3

    function State(): Rift
      reads this
    {
      Rift(device, headFactor, headShift)
    }

    /** The zero-filled allocation. */
    constructor ()
      ensures State() == Allocated()
    {
      device := None;
      headFactor := 0.0;
      headShift := Vec3(0.0, 0.0, 0.0);
    }

    /** `__init__`: returns the status, the exceptions set in order and the LibOVR calls. */
    method Init(lib: LibOvr, env: Env) returns (status: int, raised: seq<Raised>, calls: seq<LibCall>)
      requires ValidGlobals(lib.State())
      modifies this, lib
      ensures var res := InitStep(old(lib.State()), old(State()), env);
        lib.State() == res.globals && State() == res.rift &&
        status == res.status && raised == res.raised && calls == res.calls
    {
      calls := [];
      if !lib.initialised {
        calls := calls + [Initialize];
        if !env.initializeOk {
          raised := ErrorsFrom(1, env.lastError);
          device := None;
          return Failure, raised, calls;
        }
        lib.initialised := true;
      }
      lib.count := (lib.count + 1) % SizeModulus;
      calls := calls + [Detect];
      if !env.detected {
        raised := ErrorsFrom(2, env.lastError);
        device := None;
        return Failure, raised, calls;
      }
      var index := 0;
      headShift := Vec3(0.0, 0.0, 0.0);
      headFactor := 1.0;
      if env.args.None? {
        device := None;
        return Failure, [ArgumentError], calls;
      }
      var a := env.args.value;
      // the parser writes only the arguments that are given
      index := GetOr(a.index, index);
      headFactor := GetOr(a.factor, headFactor);
      headShift := Vec3(GetOr(a.shiftX, headShift.x), GetOr(a.shiftY, headShift.y), GetOr(a.shiftZ, headShift.z));
      calls := calls + [Create(index)];
      if env.created.None? {
        raised := ErrorsFrom(3, env.lastError);
        device := None;
        return Failure, raised, calls;
      }
      calls := calls + [ConfigureTracking(env.created.value)];
      device := env.created;
      return Success, [], calls;
    }

    /** The deallocation, as written: returns the LibOVR calls. */
    method Dealloc(lib: LibOvr) returns (calls: seq<LibCall>)
      requires ValidGlobals(lib.State())
      modifies lib
      ensures var res := DeallocStep(old(lib.State()), State());
        lib.State() == res.globals && calls == res.calls
    {
      calls := [];
      if device.Some? {
        calls := calls + [Destroy(device.value)];
      }
      lib.count := if lib.count == 0 then SizeModulus - 1 else lib.count - 1;
      if lib.count == 0 {
        lib.initialised := false;
        calls := calls + [Shutdown];
      }
    }

    /** `frame`: the current head pose, scaled and shifted; None is TrackingError. */
    method GetFrame(head: Pose) returns (f: Option<Frame>)
      ensures f == FrameOf(State(), head)
    {
      if device.None? {
        return None;
      }
      f := Some(Frame(Placed(head.position, headFactor, headShift), head.orientation));
    }
  }
}

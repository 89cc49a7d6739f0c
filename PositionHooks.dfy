/**
 * The `PositionHooks` mod: the three hook sites (the game's UpdateTransform,
 * UpdateCameraController and UpdateCameraController2 functions) and their installation.
 *
 * The byte scanner, `calculateAbsolute`, `FunctionHook::create` and the hooked game
 * functions are not part of this model; they are the fields of `Env` and the `original`
 * parameters. The framework's `isReady()` and its mod list are parameters too. What the
 * code does with them is recorded as event traces.
 */
module PositionHooks {
  import opened Common
  import opened Mods

  /** The three hooked game functions. */
  datatype Site = UpdateTransform | UpdateCameraController | UpdateCameraController2

  /** The arguments of a hooked call: `(t, a2, a3)` for the transform, `(a1, cameraController)` for the cameras. */
  datatype Args =
    | TransformArgs(t: Ptr, a2: Byte, a3: U32)
    | CameraArgs(a1: Ptr, cameraController: Ptr)

  /** The object the mods' callbacks receive: the transform, or the camera controller. */
  function Subject(args: Args): Ptr
  {
    match args
    case TransformArgs(t, _, _) => t
    case CameraArgs(_, cameraController) => cameraController
  }

  /** What a hooked call does, in order. */
  datatype HookEvent =
    | PreCallback(mod: ModKind, site: Site, subject: Ptr)
    | Original(site: Site, args: Args)
    | PostCallback(mod: ModKind, site: Site, subject: Ptr)

  /** The "pre" (`onPreUpdate...`) or "post" (`onUpdate...`) callback of every mod, in list order. */
  function Callbacks(mods: seq<ModKind>, pre: bool, site: Site, subject: Ptr): seq<HookEvent>
  {
    seq(|mods|, i requires 0 <= i < |mods| =>
      if pre then PreCallback(mods[i], site, subject) else PostCallback(mods[i], site, subject))
  }

  /** The events of one hooked call: a call-through when not ready, else pre, original, post. */
  function Protocol(site: Site, ready: bool, mods: seq<ModKind>, args: Args): seq<HookEvent>
  {
    if !ready then [Original(site, args)]
    else
      Callbacks(mods, true, site, Subject(args)) + [Original(site, args)] +
      Callbacks(mods, false, site, Subject(args))
  }

  /**
   * The shape of a hooked call: the original runs exactly once, at position `o`, with the
   * unchanged arguments; before it every mod's "pre" callback in list order, after it every
   * mod's "post" callback in list order, each on the call's subject. When the framework is
   * not ready `o` is 0 and nothing else happens.
   */
  lemma ProtocolShape(site: Site, ready: bool, mods: seq<ModKind>, args: Args)
    ensures var p := Protocol(site, ready, mods, args);
      var o := if ready then |mods| else 0;
      |p| == 2 * o + 1 && p[o] == Original(site, args) &&
      (forall i :: 0 <= i < |p| && i != o ==> !p[i].Original?) &&
      (forall i :: 0 <= i < o ==> p[i] == PreCallback(mods[i], site, Subject(args))) &&
      (forall i :: 0 <= i < o ==> p[o + 1 + i] == PostCallback(mods[i], site, Subject(args)))
  {
  }

  /** When not ready there is no mod callback at all: the hook is a pure call-through. */
  lemma NotReadyIsCallThrough(site: Site, mods: seq<ModKind>, args: Args)
    ensures forall e :: e in Protocol(site, false, mods, args) ==> e == Original(site, args)
  {
  }

  /** Every "pre" callback comes before every "post" callback, and all of them see the subject. */
  lemma PreBeforePost(site: Site, ready: bool, mods: seq<ModKind>, args: Args)
    ensures var p := Protocol(site, ready, mods, args);
      forall i, j :: 0 <= i < |p| && 0 <= j < |p| && p[i].PreCallback? && p[j].PostCallback? ==> i < j
    ensures var p := Protocol(site, ready, mods, args);
      forall i :: 0 <= i < |p| && !p[i].Original? ==> p[i].subject == Subject(args) && p[i].site == site
  {
    ProtocolShape(site, ready, mods, args);
  }

  /**
   * The body shared by the three `..._Internal` hooks: gate on readiness, then the "pre"
   * loop, the original call, and the "post" loop. It returns what the original returned.
   */
  method Dispatch(site: Site, ready: bool, mods: seq<ModKind>, original: Args -> Ptr, args: Args)
    returns (ret: Ptr, trace: seq<HookEvent>)
    ensures trace == Protocol(site, ready, mods, args)
    ensures ret == original(args)
  {
    if !ready {
      return original(args), [Original(site, args)];
    }
    var subject := Subject(args);
    trace := [];
    for i := 0 to |mods|
      invariant trace == Callbacks(mods[..i], true, site, subject)
    {
      trace := trace + [PreCallback(mods[i], site, subject)];
    }
    assert mods[..|mods|] == mods;
    ret := original(args);
    trace := trace + [Original(site, args)];
    ghost var before := trace;
    for i := 0 to |mods|
      invariant trace == before + Callbacks(mods[..i], false, site, subject)
    {
      trace := trace + [PostCallback(mods[i], site, subject)];
    }
  }

  // ---------------------------------------------------------------------------------------
  // onInitialize
  // ---------------------------------------------------------------------------------------

  /** The three byte signatures `onInitialize` scans the game module for. */
  datatype Pattern = TransformCall | CameraController | CameraController2

  /** The signature text of each pattern (`?` is a wildcard byte). */
  function Signature(p: Pattern): string
  {
    match p
    case TransformCall => "E8 ? ? ? ? 48 8B 5B ? 48 85 DB 75 ? 48 8B 4D 40 48 ? ?"
    case CameraController => "40 55 56 57 48 8D AC 24 ? ? ? ? 48 81 EC ? ? 00 00 48 8B 41 50"
    case CameraController2 => "40 53 57 48 81 EC ? ? ? ? 48 ? ? ? 48 ? ? 48 ? ? ? ? 00 00"
  }

  /** A `FunctionHook`: the address it detours and the hook site it detours to. */
  datatype FunctionHook = FunctionHook(target: Ptr, destination: Site)

  /**
   * What `onInitialize` relies on: the scanner, `calculateAbsolute`, whether
   * `FunctionHook::create` succeeds for a hook, and the result of `Mod::onInitialize()`.
   */
  datatype Env = Env(
    scan: Pattern -> Option<Ptr>,
    calculateAbsolute: Ptr -> Ptr,
    create: FunctionHook -> bool,
    modInitialize: Option<string>)

  /** A step of `onInitialize`. */
  datatype InitEvent =
    | Scan(pattern: Pattern)
    | Resolve(address: Ptr)
    | Create(hook: FunctionHook)

  /** The three hook members `m_updateTransformHook`, `m_updateCameraControllerHook`, `m_updateCameraController2Hook`. */
  datatype Hooks = Hooks(
    transform: Option<FunctionHook>,
    camera: Option<FunctionHook>,
    camera2: Option<FunctionHook>)

  /** The error message, the steps taken and the hook members after `onInitialize`. */
  datatype InitOutcome = InitOutcome(result: Option<string>, trace: seq<InitEvent>, hooks: Hooks)

  const NoTransformPatternMessage: string := "Unable to find UpdateTransform pattern."
  const TransformFailedMessage: string := "Failed to hook UpdateTransform"
  const CameraFailedMessage: string := "Failed to hook UpdateCameraController"
  const NoCamera2PatternMessage: string := "Unable to find UpdateCameraController2 pattern."
  const Camera2FailedMessage: string := "Failed to hook UpdateCameraController2"

  /** The transform hook: detouring the target of the `E8` call, resolved from the byte after the opcode. */
  function TransformHook(env: Env): FunctionHook
    requires env.scan(TransformCall).Some?
  {
    FunctionHook(env.calculateAbsolute(env.scan(TransformCall).value + 1), UpdateTransform)
  }

  /** The camera hook, detouring the address the scan found. */
  function CameraHook(env: Env): FunctionHook
    requires env.scan(CameraController).Some?
  {
    FunctionHook(env.scan(CameraController).value, UpdateCameraController)
  }

  /** The second camera hook, detouring the address the scan found. */
  function Camera2Hook(env: Env): FunctionHook
    requires env.scan(CameraController2).Some?
  {
    FunctionHook(env.scan(CameraController2).value, UpdateCameraController2)
  }

  /** The chain gets as far as the UpdateCameraController scan. */
  predicate ReachesCameraScan(env: Env)
  {
    env.scan(TransformCall).Some? && env.create(TransformHook(env))
  }

  /**
   * The UpdateCameraController scan result is dereferenced without a check, so the code as
   * written is defined only when that pattern is found whenever the scan is reached.
   */
  predicate CameraScanDereferenceIsSafe(env: Env)
  {
    ReachesCameraScan(env) ==> env.scan(CameraController).Some?
  }

  /** How far the chain gets: the step that fails, or `AllHooked`. */
  datatype Stage =
    | NoTransformPattern
    | TransformNotCreated
    | NoCameraPattern
    | CameraNotCreated
    | NoCamera2Pattern
    | Camera2NotCreated
    | AllHooked

  /** The stage of the chain with a checked camera scan. */
  function StageOf(env: Env): Stage
  {
    if env.scan(TransformCall).None? then NoTransformPattern
    else if !env.create(TransformHook(env)) then TransformNotCreated
    else if env.scan(CameraController).None? then NoCameraPattern
    else if !env.create(CameraHook(env)) then CameraNotCreated
    else if env.scan(CameraController2).None? then NoCamera2Pattern
    else if !env.create(Camera2Hook(env)) then Camera2NotCreated
    else AllHooked
  }

  /** The ordinal of a stage, for "how far". */
  function StageIndex(s: Stage): nat
  {
    match s
    case NoTransformPattern => 0
    case TransformNotCreated => 1
    case NoCameraPattern => 2
    case CameraNotCreated => 3
    case NoCamera2Pattern => 4
    case Camera2NotCreated => 5
    case AllHooked => 6
  }

  /** The message `onInitialize` returns when the chain fails at `s`. */
  function FailureMessage(s: Stage, camera: string): Option<string>
  {
    match s
    case NoTransformPattern => Some(NoTransformPatternMessage)
    case TransformNotCreated => Some(TransformFailedMessage)
    case NoCameraPattern => Some(camera)
    case CameraNotCreated => Some(CameraFailedMessage)
    case NoCamera2Pattern => Some(NoCamera2PatternMessage)
    case Camera2NotCreated => Some(Camera2FailedMessage)
    case AllHooked => None
  }

  /**
   * `PositionHooks::onInitialize` as written, from the hook members `h0` it starts with:
   * scan, resolve and hook UpdateTransform; scan and hook UpdateCameraController; scan and
   * hook UpdateCameraController2; then `Mod::onInitialize()`. Each failure returns at once.
   */
  function InitChain(env: Env, h0: Hooks): InitOutcome
    requires CameraScanDereferenceIsSafe(env)
  {
    match env.scan(TransformCall)
    case None => InitOutcome(Some(NoTransformPatternMessage), [Scan(TransformCall)], h0)
    case Some(m) =>
      var t := FunctionHook(env.calculateAbsolute(m + 1), UpdateTransform);
      var tr1 := [Scan(TransformCall), Resolve(m + 1), Create(t)];
      var h1 := h0.(transform := Some(t));
      if !env.create(t) then InitOutcome(Some(TransformFailedMessage), tr1, h1)
      else
        var c := FunctionHook(env.scan(CameraController).value, UpdateCameraController);
        var tr2 := tr1 + [Scan(CameraController), Create(c)];
        var h2 := h1.(camera := Some(c));
        if !env.create(c) then InitOutcome(Some(CameraFailedMessage), tr2, h2)
        else
          match env.scan(CameraController2)
          case None => InitOutcome(Some(NoCamera2PatternMessage), tr2 + [Scan(CameraController2)], h2)
          case Some(m2) =>
            var c2 := FunctionHook(m2, UpdateCameraController2);
            var tr3 := tr2 + [Scan(CameraController2), Create(c2)];
            var h3 := h2.(camera2 := Some(c2));
            if !env.create(c2) then InitOutcome(Some(Camera2FailedMessage), tr3, h3)
            else InitOutcome(env.modInitialize, tr3, h3)
  }

  /**
   * The corrected chain: the UpdateCameraController scan is checked like the other two and
   * a missing pattern returns "Unable to find UpdateCameraController pattern.".
   */
  function CheckedInitChain(env: Env, h0: Hooks): InitOutcome
  {
    if ReachesCameraScan(env) && env.scan(CameraController).None? then
      var t := TransformHook(env);
      InitOutcome(Some(NoCameraPatternMessage),
        [Scan(TransformCall), Resolve(env.scan(TransformCall).value + 1), Create(t), Scan(CameraController)],
        h0.(transform := Some(t)))
    else
      InitChain(env, h0)
  }

  const NoCameraPatternMessage: string := "Unable to find UpdateCameraController pattern."

  /** The order of the steps: each step has a fixed rank, and ranks strictly increase along a trace. */
  function Rank(e: InitEvent): nat
  {
    match e
    case Scan(TransformCall) => 0
    case Resolve(_) => 1
    case Create(FunctionHook(_, UpdateTransform)) => 2
    case Scan(CameraController) => 3
    case Create(FunctionHook(_, UpdateCameraController)) => 4
    case Scan(CameraController2) => 5
    case Create(FunctionHook(_, UpdateCameraController2)) => 6
  }

  /** The highest rank a chain that stops at stage `s` reaches. */
  function LastRank(s: Stage): nat
  {
    match s
    case NoTransformPattern => 0
    case TransformNotCreated => 2
    case NoCameraPattern => 3
    case CameraNotCreated => 4
    case NoCamera2Pattern => 5
    case Camera2NotCreated => 6
    case AllHooked => 6
  }

  /**
   * The outcome of the corrected chain, stage by stage: the result is the failing step's
   * message (or `Mod::onInitialize()`'s result when every hook is created); the steps run in
   * the order UpdateTransform, UpdateCameraController, UpdateCameraController2, none of
   * them twice, up to the failing one and no further; and a hook member is set exactly
   * when its site's scan succeeded, so no later hook is made after a failure.
   */
  lemma CheckedChainOutcome(env: Env, h0: Hooks)
    ensures var o := CheckedInitChain(env, h0);
      var s := StageOf(env);
      o.result == (if s == AllHooked then env.modInitialize else FailureMessage(s, NoCameraPatternMessage)) &&
      (forall i, j :: 0 <= i < j < |o.trace| ==> Rank(o.trace[i]) < Rank(o.trace[j])) &&
      |o.trace| == LastRank(s) + 1 && Rank(o.trace[|o.trace| - 1]) == LastRank(s) &&
      o.hooks.transform == (if StageIndex(s) >= 1 then Some(TransformHook(env)) else h0.transform) &&
      o.hooks.camera == (if StageIndex(s) >= 3 then Some(CameraHook(env)) else h0.camera) &&
      o.hooks.camera2 == (if StageIndex(s) >= 5 then Some(Camera2Hook(env)) else h0.camera2)
  {
  }

  /** Wherever the code as written is defined, it agrees with the corrected chain. */
  lemma CheckedAgreesWhereDefined(env: Env, h0: Hooks)
    requires CameraScanDereferenceIsSafe(env)
    ensures CheckedInitChain(env, h0) == InitChain(env, h0)
    ensures StageOf(env) != NoCameraPattern
  {
  }

  /**
   * The UpdateTransform hook detours `calculateAbsolute(match + 1)`: the address is resolved
   * from the byte after the matched `E8` opcode.
   */
  lemma TransformTargetSkipsOpcode(env: Env, h0: Hooks)
    requires env.scan(TransformCall).Some?
    ensures CheckedInitChain(env, h0).hooks.transform ==
      Some(FunctionHook(env.calculateAbsolute(env.scan(TransformCall).value + 1), UpdateTransform))
    ensures Resolve(env.scan(TransformCall).value + 1) in CheckedInitChain(env, h0).trace
  {
  }

  /**
   * If `calculateAbsolute(p)` reads the signed 32-bit displacement stored at `p` and adds it
   * to the address after it (`p + 4`), as `CALL rel32` is defined in the Intel 64 and IA-32
   * Architectures Software Developer's Manual, Volume 2A, "CALL—Call Procedure", then the
   * transform hook detours the call's destination: the address of the instruction after
   * the five-byte call plus the displacement.
   */
  lemma TransformHookDetoursCallDestination(env: Env, h0: Hooks, rel32: Ptr -> int)
    requires env.scan(TransformCall).Some?
    requires forall p: Ptr :: -0x8000_0000 <= rel32(p) < 0x8000_0000 && env.calculateAbsolute(p) as int == p + 4 + rel32(p)
    ensures var m := env.scan(TransformCall).value;
      CheckedInitChain(env, h0).hooks.transform.value.target == m + 5 + rel32(m + 1)
  {
  }

  /**
   * The input the code as written does not handle: the transform hook succeeds and the
   * UpdateCameraController pattern is missing. The source then dereferences an empty
   * optional; the corrected chain reports the missing pattern.
   */
  lemma MissingCameraPatternIsUnchecked()
    ensures var env := Env(
        p => if p == CameraController then None else Some(0x1000),
        a => a + 0x100, h => true, None);
      !CameraScanDereferenceIsSafe(env) &&
      CheckedInitChain(env, Hooks(None, None, None)).result == Some(NoCameraPatternMessage)
  {
    var env := Env(p => if p == CameraController then None else Some(0x1000), a => a + 0x100, h => true, None);
    assert env.scan(TransformCall) == Some(0x1000);
    assert env.scan(CameraController) == None;
  }

  /** `g_hook`: the instance the static forwarders call into. */
  class HookRegistry {
    var current: PositionHooks?

    /** `g_hook` starts as `nullptr`. */
    constructor ()
      ensures current == null
    {
      current := null;
    }

    /** `PositionHooks::updateTransformHook`: forwards to the registered instance. */
    method UpdateTransformHook(ready: bool, mods: seq<ModKind>, original: Args -> Ptr, t: Ptr, a2: Byte, a3: U32)
      returns (ret: Ptr, trace: seq<HookEvent>)
      requires current != null && current.transformHook.Some?
      ensures trace == Protocol(UpdateTransform, ready, mods, TransformArgs(t, a2, a3))
      ensures ret == original(TransformArgs(t, a2, a3))
    {
      ret, trace := current.UpdateTransformHookInternal(ready, mods, original, t, a2, a3);
    }

    /** `PositionHooks::updateCameraControllerHook`: forwards to the registered instance. */
    method UpdateCameraControllerHook(ready: bool, mods: seq<ModKind>, original: Args -> Ptr, a1: Ptr, cameraController: Ptr)
      returns (ret: Ptr, trace: seq<HookEvent>)
      requires current != null && current.cameraHook.Some?
      ensures trace == Protocol(UpdateCameraController, ready, mods, CameraArgs(a1, cameraController))
      ensures ret == original(CameraArgs(a1, cameraController))
    {
      ret, trace := current.UpdateCameraControllerHookInternal(ready, mods, original, a1, cameraController);
    }

    /** `PositionHooks::updateCameraController2Hook`: forwards to the registered instance. */
    method UpdateCameraController2Hook(ready: bool, mods: seq<ModKind>, original: Args -> Ptr, a1: Ptr, cameraController: Ptr)
      returns (ret: Ptr, trace: seq<HookEvent>)
      requires current != null && current.camera2Hook.Some?
      ensures trace == Protocol(UpdateCameraController2, ready, mods, CameraArgs(a1, cameraController))
      ensures ret == original(CameraArgs(a1, cameraController))
    {
      ret, trace := current.UpdateCameraController2HookInternal(ready, mods, original, a1, cameraController);
    }
  }

  class PositionHooks {
    var transformHook: Option<FunctionHook>
    var cameraHook: Option<FunctionHook>
    var camera2Hook: Option<FunctionHook>

    /** The hook members as one value. */
    function HookMembers(): Hooks
      reads this
    {
      Hooks(transformHook, cameraHook, camera2Hook)
    }

    /** `PositionHooks::PositionHooks`: no hook yet, and `g_hook` points to the new instance. */
    constructor (registry: HookRegistry)
      modifies registry
      ensures registry.current == this
      ensures transformHook.None? && cameraHook.None? && camera2Hook.None?
    {
      transformHook, cameraHook, camera2Hook := None, None, None;
      new;
      registry.current := this;
    }

    /**
     * `PositionHooks::onInitialize`, step by step, with the UpdateCameraController scan
     * checked; the result, the steps and the new hook members are those of `CheckedInitChain`.
     */
    method OnInitialize(env: Env) returns (result: Option<string>, trace: seq<InitEvent>)
      modifies this
      ensures result == CheckedInitChain(env, old(HookMembers())).result
      ensures trace == CheckedInitChain(env, old(HookMembers())).trace
      ensures HookMembers() == CheckedInitChain(env, old(HookMembers())).hooks
    {
      var updateTransformCall := env.scan(TransformCall);
      trace := [Scan(TransformCall)];
      if updateTransformCall.None? {
        return Some(NoTransformPatternMessage), trace;
      }
      var updateTransform := env.calculateAbsolute(updateTransformCall.value + 1);
      trace := trace + [Resolve(updateTransformCall.value + 1)];
      transformHook := Some(FunctionHook(updateTransform, UpdateTransform));
      trace := trace + [Create(transformHook.value)];
      if !env.create(transformHook.value) {
        return Some(TransformFailedMessage), trace;
      }
      var updateCameraController := env.scan(CameraController);
      trace := trace + [Scan(CameraController)];
      if updateCameraController.None? {
        return Some(NoCameraPatternMessage), trace;
      }
      cameraHook := Some(FunctionHook(updateCameraController.value, UpdateCameraController));
      trace := trace + [Create(cameraHook.value)];
      if !env.create(cameraHook.value) {
        return Some(CameraFailedMessage), trace;
      }
      var updateCameraController2 := env.scan(CameraController2);
      trace := trace + [Scan(CameraController2)];
      if updateCameraController2.None? {
        return Some(NoCamera2PatternMessage), trace;
      }
      camera2Hook := Some(FunctionHook(updateCameraController2.value, UpdateCameraController2));
      trace := trace + [Create(camera2Hook.value)];
      if !env.create(camera2Hook.value) {
        return Some(Camera2FailedMessage), trace;
      }
      result := env.modInitialize;
    }

    /** `updateTransformHook_Internal`: the protocol on `(t, a2, a3)`, returning the original's result. */
    method UpdateTransformHookInternal(ready: bool, mods: seq<ModKind>, original: Args -> Ptr, t: Ptr, a2: Byte, a3: U32)
      returns (ret: Ptr, trace: seq<HookEvent>)
      requires transformHook.Some?
      ensures trace == Protocol(UpdateTransform, ready, mods, TransformArgs(t, a2, a3))
      ensures ret == original(TransformArgs(t, a2, a3))
    {
      ret, trace := Dispatch(UpdateTransform, ready, mods, original, TransformArgs(t, a2, a3));
    }

    /** `updateCameraControllerHook_Internal`: `a1` goes to the original untouched, the controller to the callbacks. */
    method UpdateCameraControllerHookInternal(ready: bool, mods: seq<ModKind>, original: Args -> Ptr, a1: Ptr, cameraController: Ptr)
      returns (ret: Ptr, trace: seq<HookEvent>)
      requires cameraHook.Some?
      ensures trace == Protocol(UpdateCameraController, ready, mods, CameraArgs(a1, cameraController))
      ensures ret == original(CameraArgs(a1, cameraController))
    {
      ret, trace := Dispatch(UpdateCameraController, ready, mods, original, CameraArgs(a1, cameraController));
    }

    /** `updateCameraController2Hook_Internal`: the same protocol for the second camera site. */
    method UpdateCameraController2HookInternal(ready: bool, mods: seq<ModKind>, original: Args -> Ptr, a1: Ptr, cameraController: Ptr)
      returns (ret: Ptr, trace: seq<HookEvent>)
      requires camera2Hook.Some?
      ensures trace == Protocol(UpdateCameraController2, ready, mods, CameraArgs(a1, cameraController))
      ensures ret == original(CameraArgs(a1, cameraController))
    {
      ret, trace := Dispatch(UpdateCameraController2, ready, mods, original, CameraArgs(a1, cameraController));
    }
  }
}

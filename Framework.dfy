/**
 * The `REFramework` lifecycle: the flags `m_initialized`, `m_firstFrame`, `m_drawUI`,
 * `m_lastKeys`, `m_error`, `m_gameDataInitialized` and `m_mainRenderTargetView`, as the
 * frame, reset, message, DirectInput and game-data-initialisation entry points change them.
 *
 * D3D11, ImGui, the input hooks and the logger are outside the model: what they report is a
 * parameter (`D3DEnv`, `UiInput`, `ImGuiIo`), and what the framework asks of them is
 * recorded as `Effect`s. The game-data thread is modelled as one sequential step
 * (`GameDataInitStep`, the `GameDataThreadDone` action, and the method `RunGameDataInit`).
 */
module Framework {
  import opened Common
  import opened Mods

  /** `std::array<uint8_t, 256>` of DirectInput key states. */
  type Keys = k: seq<Byte> | |k| == 256 witness seq(256, _ => 0)

  /** The framework's own state. */
  datatype FwState = FwState(
    initialized: bool,
    firstFrame: bool,
    drawUI: bool,
    lastKeys: Keys,
    error: string,
    gameDataInitialized: bool,
    renderTargetView: Ptr)

  /** What D3D11 and ImGui report to `initialize` and `createRenderTarget`. */
  datatype D3DEnv = D3DEnv(
    device: Ptr,
    swapChain: Ptr,
    backBufferOk: bool,
    createdView: Ptr,
    win32InitOk: bool,
    dx11InitOk: bool)

  /** What ImGui reports during `drawUI`: the keyboard-capture flag, and whether the window's close button was clicked. */
  datatype UiInput = UiInput(wantCaptureKeyboard: bool, closeClicked: bool)

  /** The three status panels of `drawUI`. */
  datatype UiStatus = ModsUI | Initializing | ErrorText(message: string)

  /** What the framework asks of the outside world. */
  datatype Effect =
    | ReleaseRenderTarget(view: Ptr)
    | CreateRenderTarget(view: Ptr)
    | InstallMessageHook
    | CreateDInputHook
    | SetDInputWindow
    | LaunchGameDataInit
    | ModsOnFrame
    | AcknowledgeInput
    | IgnoreInput
    | MouseCursor(shown: bool)
    | StatusPanel(status: UiStatus)
    | RenderTo(view: Ptr)
    | SaveConfig

  const UnknownErrorMessage: string := "An unknown error has occurred."

  // ---------------------------------------------------------------------------------------
  // Step functions
  // ---------------------------------------------------------------------------------------

  /** `cleanupRenderTarget`: release a non-null view and clear the member. */
  function CleanupStep(s: FwState): (r: (FwState, seq<Effect>))
  {
    if s.renderTargetView != Null then
      (s.(renderTargetView := Null), [ReleaseRenderTarget(s.renderTargetView)])
    else (s, [])
  }

  /** `createRenderTarget`: clean up, then create a view on the back buffer if it is available. */
  function CreateRenderTargetStep(s: FwState, env: D3DEnv): (FwState, seq<Effect>)
  {
    var (c, e) := CleanupStep(s);
    if env.backBufferOk then (c.(renderTargetView := env.createdView), e + [CreateRenderTarget(env.createdView)])
    else (c, e)
  }

  /**
   * `initialize`: nothing to do when already initialised; nothing done when the device or
   * the swap chain is null; otherwise the hooks and the render target are set up, ImGui is
   * initialised, and on the first successful pass the game-data thread is launched.
   */
  function InitializeStep(s: FwState, env: D3DEnv): (FwState, bool, seq<Effect>)
  {
    if s.initialized then (s, true, [])
    else if env.device == Null || env.swapChain == Null then (s, false, [])
    else
      var hooks := [InstallMessageHook] + (if s.firstFrame then [CreateDInputHook] else [SetDInputWindow]);
      var (s1, e1) := CreateRenderTargetStep(s, env);
      if !env.win32InitOk || !env.dx11InitOk then (s1, false, hooks + e1)
      else if s1.firstFrame then (s1.(firstFrame := false), true, hooks + e1 + [LaunchGameDataInit])
      else (s1, true, hooks + e1)
  }

  /**
   * The status choice of `drawUI`: the mods' UI when there is no error and game data is
   * initialised, else the "initializing" note while game data is not initialised, else the
   * error text.
   */
  function Status(s: FwState): (st: UiStatus)
    ensures st == ModsUI <==> s.error == "" && s.gameDataInitialized
    ensures st == Initializing <==> !s.gameDataInitialized
    ensures st.ErrorText? <==> s.gameDataInitialized && s.error != ""
    ensures st.ErrorText? ==> st.message == s.error
  {
    if s.error == "" && s.gameDataInitialized then ModsUI
    else if !s.gameDataInitialized then Initializing
    else ErrorText(s.error)
  }

  /**
   * `drawUI`: when hidden, input goes to the game and the cursor is hidden; when shown,
   * keyboard input is withheld from the game while ImGui captures it, the status panel is
   * drawn, and the window's close button clears `m_drawUI`.
   */
  function DrawUIStep(s: FwState, ui: UiInput): (FwState, seq<Effect>)
  {
    if !s.drawUI then (s, [AcknowledgeInput, MouseCursor(false)])
    else
      var input := if ui.wantCaptureKeyboard then IgnoreInput else AcknowledgeInput;
      (s.(drawUI := !ui.closeClicked), [input, MouseCursor(true), StatusPanel(Status(s))])
  }

  /** The mods' `onFrame` runs on a frame exactly when this holds. */
  predicate ModsRun(s: FwState)
  {
    s.initialized && s.error == "" && s.gameDataInitialized
  }

  /**
   * `onFrame`: while uninitialised, only an attempt to initialise, which sets
   * `m_initialized` on success; once initialised, the mods' frame (when there is no error
   * and game data is initialised), the UI, and rendering to the main render target.
   */
  function FrameStep(s: FwState, env: D3DEnv, ui: UiInput): (FwState, seq<Effect>)
  {
    if !s.initialized then
      var (s1, ok, e) := InitializeStep(s, env);
      if !ok then (s1, e) else (s1.(initialized := true), e)
    else
      var mods := if s.error == "" && s.gameDataInitialized then [ModsOnFrame] else [];
      var (s1, e) := DrawUIStep(s, ui);
      (s1, mods + e + [RenderTo(s1.renderTargetView)])
  }

  /** `onReset`: release the render target and require a new initialisation. */
  function ResetStep(s: FwState): (FwState, seq<Effect>)
  {
    var (c, e) := CleanupStep(s);
    (c.(initialized := false), e)
  }

  /** The menu key went down: pressed now, not pressed at the previous poll. */
  predicate RisingEdge(s: FwState, keys: Keys, menuKey: Byte)
  {
    keys[menuKey] != 0 && s.lastKeys[menuKey] == 0
  }

  /**
   * `onDirectInputKeys`: a rising edge of the menu key toggles `m_drawUI`, and a toggle that
   * closes the UI while game data is initialised saves the config; the keys are remembered.
   */
  function KeysStep(s: FwState, keys: Keys, menuKey: Byte): (FwState, seq<Effect>)
  {
    if RisingEdge(s, keys, menuKey) then
      var save := if s.drawUI && s.gameDataInitialized then [SaveConfig] else [];
      (s.(drawUI := !s.drawUI, lastKeys := keys), save)
    else (s.(lastKeys := keys), [])
  }

  /**
   * The error message after the game-data thread: an empty error becomes the "unknown
   * error" text, a non-empty one is kept verbatim, and no error keeps the current one.
   */
  function InitErrorMessage(e: Option<string>, current: string): (m: string)
    ensures e.None? ==> m == current
    ensures e == Some("") ==> m == UnknownErrorMessage
    ensures e.Some? && e.value != "" ==> m == e.value
    ensures e.Some? ==> m != ""
  {
    match e
    case None => current
    case Some(msg) => if msg == "" then UnknownErrorMessage else msg
  }

  /** The end of the game-data thread: the error is set from the mods' result, and game data is initialised. */
  function GameDataInitStep(s: FwState, e: Option<string>): FwState
  {
    s.(error := InitErrorMessage(e, s.error), gameDataInitialized := true)
  }

  // ---------------------------------------------------------------------------------------
  // Properties of the steps
  // ---------------------------------------------------------------------------------------

  /**
   * An uninitialised frame only attempts `initialize`: no mod runs and nothing is drawn or
   * rendered; `m_initialized` becomes exactly the success of the attempt.
   */
  lemma UninitialisedFrameOnlyInitialises(s: FwState, env: D3DEnv, ui: UiInput)
    requires !s.initialized
    ensures var (s1, e) := FrameStep(s, env, ui);
      s1.initialized == InitializeStep(s, env).1 &&
      ModsOnFrame !in e && (forall v :: RenderTo(v) !in e) && (forall st :: StatusPanel(st) !in e)
  {
  }

  /** The mods' `onFrame` is requested exactly on initialised frames with no error and initialised game data. */
  lemma ModsRunOnlyWhenReady(s: FwState, env: D3DEnv, ui: UiInput)
    ensures ModsOnFrame in FrameStep(s, env, ui).1 <==> ModsRun(s)
  {
  }

  /** `initialize` on an initialised framework succeeds and changes nothing. */
  lemma InitializeWhenInitialised(s: FwState, env: D3DEnv)
    requires s.initialized
    ensures InitializeStep(s, env) == (s, true, [])
  {
  }

  /** Without a device or swap chain `initialize` fails, changes no flag and asks for nothing. */
  lemma InitializeWithoutDevice(s: FwState, env: D3DEnv)
    requires !s.initialized && (env.device == Null || env.swapChain == Null)
    ensures InitializeStep(s, env) == (s, false, [])
  {
  }

  /**
   * The game-data thread is launched exactly by a successful first pass through
   * `initialize`; that pass clears `m_firstFrame`, and nothing else changes it.
   */
  lemma LaunchOnlyOnFirstPass(s: FwState, env: D3DEnv)
    ensures var (s1, ok, e) := InitializeStep(s, env);
      (LaunchGameDataInit in e <==> !s.initialized && ok && s.firstFrame) &&
      s1.firstFrame == (s.firstFrame && LaunchGameDataInit !in e) &&
      s1.initialized == s.initialized && s1.drawUI == s.drawUI && s1.error == s.error &&
      s1.gameDataInitialized == s.gameDataInitialized && s1.lastKeys == s.lastKeys
  {
  }

  /**
   * `createRenderTarget` leaves the created view exactly when the back buffer is available
   * (otherwise none), releases exactly a view that was held, and changes no other flag.
   */
  lemma CreateRenderTargetReplacesView(s: FwState, env: D3DEnv)
    ensures var (s1, e) := CreateRenderTargetStep(s, env);
      s1.renderTargetView == (if env.backBufferOk then env.createdView else Null) &&
      (ReleaseRenderTarget(s.renderTargetView) in e <==> s.renderTargetView != Null) &&
      (CreateRenderTarget(env.createdView) in e <==> env.backBufferOk) &&
      s1.(renderTargetView := s.renderTargetView) == s
  {
  }

  /**
   * `drawUI`: a hidden UI changes nothing and hands input back to the game with the cursor
   * hidden; a shown UI withholds input exactly while ImGui captures the keyboard, shows the
   * cursor and the status panel, stays shown exactly unless closed, and changes nothing else.
   */
  lemma DrawUIShowsStatus(s: FwState, ui: UiInput)
    ensures var (s1, e) := DrawUIStep(s, ui);
      (!s.drawUI ==> s1 == s && e == [AcknowledgeInput, MouseCursor(false)]) &&
      (s.drawUI ==>
        (IgnoreInput in e <==> ui.wantCaptureKeyboard) && (AcknowledgeInput in e <==> !ui.wantCaptureKeyboard) &&
        MouseCursor(true) in e && StatusPanel(Status(s)) in e &&
        s1.drawUI == !ui.closeClicked) &&
      s1.(drawUI := s.drawUI) == s
  {
  }

  /** `onReset` leaves the framework uninitialised with no render target. */
  lemma ResetClears(s: FwState)
    ensures var (s1, e) := ResetStep(s);
      !s1.initialized && s1.renderTargetView == Null &&
      (e == [] <==> s.renderTargetView == Null) &&
      s1.(initialized := s.initialized, renderTargetView := s.renderTargetView) == s
  {
  }

  /** `cleanupRenderTarget` is idempotent: a second call releases nothing and changes nothing. */
  lemma CleanupIdempotent(s: FwState)
    ensures var (s1, _) := CleanupStep(s);
      CleanupStep(s1) == (s1, []) && s1.renderTargetView == Null
  {
  }

  /**
   * `m_drawUI` flips exactly on a rising edge of the menu key, `m_lastKeys` always becomes
   * the keys just read, and the config is saved exactly on a toggle that closes the UI
   * while game data is initialised.
   */
  lemma KeysToggleOnRisingEdge(s: FwState, keys: Keys, menuKey: Byte)
    ensures var (s1, e) := KeysStep(s, keys, menuKey);
      (s1.drawUI != s.drawUI <==> RisingEdge(s, keys, menuKey)) &&
      s1.lastKeys == keys &&
      (SaveConfig in e <==> RisingEdge(s, keys, menuKey) && !s1.drawUI && s.gameDataInitialized) &&
      s1.(drawUI := s.drawUI, lastKeys := s.lastKeys) == s
  {
  }

  /** Holding the menu key down does not toggle again: the next poll with the same keys changes nothing. */
  lemma HoldingKeyDoesNotToggle(s: FwState, keys: Keys, menuKey: Byte)
    ensures var (s1, _) := KeysStep(s, keys, menuKey);
      KeysStep(s1, keys, menuKey) == (s1, [])
  {
  }

  /** The game-data thread always marks game data initialised, with the normalised error. */
  lemma GameDataInitNormalisesError(s: FwState, e: Option<string>)
    ensures var s1 := GameDataInitStep(s, e);
      s1.gameDataInitialized &&
      (e == Some("") ==> s1.error == UnknownErrorMessage) &&
      (e.Some? && e.value != "" ==> s1.error == e.value) &&
      (e.None? ==> s1.error == s.error) &&
      (e.Some? ==> Status(s1) == ErrorText(s1.error)) &&
      (e.None? && s.error == "" ==> Status(s1) == ModsUI)
  {
  }

  /** `onMessage` lets a message through unless the shown UI consumed it while ImGui wants input. */
  function MessagePasses(s: FwState, handled: bool, wantMouse: bool, wantKeyboard: bool, wantText: bool): (pass: bool)
    ensures !s.initialized ==> pass
    ensures !pass <==> s.initialized && s.drawUI && handled && (wantMouse || wantKeyboard || wantText)
  {
    if !s.initialized then true
    else if s.drawUI && handled then !(wantMouse || wantKeyboard || wantText)
    else true
  }

  // ---------------------------------------------------------------------------------------
  // Whole runs
  // ---------------------------------------------------------------------------------------

  /** One call into the framework from the outside. */
  datatype Action =
    | Present(env: D3DEnv, ui: UiInput)
    | ResizeBuffers
    | DirectInputKeys(keys: Keys)
    | GameDataThreadDone(e: Option<string>)

  /** The state and the effects of one action. */
  function Apply(s: FwState, a: Action, menuKey: Byte): (FwState, seq<Effect>)
  {
    match a
    case Present(env, ui) => FrameStep(s, env, ui)
    case ResizeBuffers => ResetStep(s)
    case DirectInputKeys(keys) => KeysStep(s, keys, menuKey)
    case GameDataThreadDone(e) => (GameDataInitStep(s, e), [])
  }

  /** The state and the effects of a sequence of actions. */
  function Run(s: FwState, actions: seq<Action>, menuKey: Byte): (FwState, seq<Effect>)
    decreases |actions|
  {
    if actions == [] then (s, [])
    else
      var (s1, e1) := Apply(s, actions[0], menuKey);
      var (s2, e2) := Run(s1, actions[1..], menuKey);
      (s2, e1 + e2)
  }

  /** How many times the game-data thread is launched in a sequence of effects. */
  function Launches(effects: seq<Effect>): nat
    decreases |effects|
  {
    if effects == [] then 0
    else (if effects[0] == LaunchGameDataInit then 1 else 0) + Launches(effects[1..])
  }

  lemma {:induction false} LaunchesConcat(a: seq<Effect>, b: seq<Effect>)
    ensures Launches(a + b) == Launches(a) + Launches(b)
    decreases |a|
  {
    if a != [] {
      assert (a + b)[0] == a[0] && (a + b)[1..] == a[1..] + b;
      LaunchesConcat(a[1..], b);
    } else {
      assert a + b == b;
    }
  }

  lemma {:induction false} NoLaunchNoCount(effects: seq<Effect>)
    requires LaunchGameDataInit !in effects
    ensures Launches(effects) == 0
    decreases |effects|
  {
    if effects != [] {
      NoLaunchNoCount(effects[1..]);
    }
  }

  /** Every action launches at most once, only from a first frame, and a launch ends the first frame for good. */
  lemma ApplyLaunch(s: FwState, a: Action, menuKey: Byte)
    ensures var (s1, e) := Apply(s, a, menuKey);
      Launches(e) <= (if s.firstFrame then 1 else 0) &&
      (s1.firstFrame ==> s.firstFrame) &&
      (Launches(e) > 0 ==> !s1.firstFrame)
  {
    match a
    case Present(env, ui) =>
      var (s1, e) := FrameStep(s, env, ui);
      if !s.initialized {
        var (si, ok, ei) := InitializeStep(s, env);
        LaunchOnlyOnFirstPass(s, env);
        LaunchesOfInitialize(s, env);
      } else {
        NoLaunchNoCount(e);
      }
    case ResizeBuffers =>
    case DirectInputKeys(keys) =>
    case GameDataThreadDone(e) =>
  }

  /** `initialize` launches the thread once exactly when it says so, and never otherwise. */
  lemma LaunchesOfInitialize(s: FwState, env: D3DEnv)
    ensures Launches(InitializeStep(s, env).2) == if LaunchGameDataInit in InitializeStep(s, env).2 then 1 else 0
  {
    if !s.initialized && env.device != Null && env.swapChain != Null {
      var hooks := [InstallMessageHook] + (if s.firstFrame then [CreateDInputHook] else [SetDInputWindow]);
      var (s1, e1) := CreateRenderTargetStep(s, env);
      NoLaunchNoCount(hooks + e1);
      LaunchesConcat(hooks + e1, [LaunchGameDataInit]);
    }
  }

  /**
   * Over any run the game-data thread is launched at most once, and not at all unless the
   * run starts on the first frame.
   */
  lemma {:induction false} LaunchedAtMostOnce(s: FwState, actions: seq<Action>, menuKey: Byte)
    ensures Launches(Run(s, actions, menuKey).1) <= (if s.firstFrame then 1 else 0)
    ensures Run(s, actions, menuKey).0.firstFrame ==> s.firstFrame
    decreases |actions|
  {
    if actions != [] {
      var (s1, e1) := Apply(s, actions[0], menuKey);
      var (s2, e2) := Run(s1, actions[1..], menuKey);
      ApplyLaunch(s, actions[0], menuKey);
      LaunchedAtMostOnce(s1, actions[1..], menuKey);
      LaunchesConcat(e1, e2);
    }
  }

  // ---------------------------------------------------------------------------------------
  // The framework object
  // ---------------------------------------------------------------------------------------

  class REFramework {
    var initialized: bool
    var firstFrame: bool
    var drawUI: bool
    var lastKeys: Keys
    var error: string
    var gameDataInitialized: bool
    var renderTargetView: Ptr
    /** `m_mods`, created by the game-data thread. */
    var mods: ModList?
    /** `m_menuKey`. */
    const menuKey: Byte

    /** The flags as one value. */
    function State(): FwState
      reads this
    {
      FwState(initialized, firstFrame, drawUI, lastKeys, error, gameDataInitialized, renderTargetView)
    }

    /** Game data is only marked initialised once the mod list exists. */
    predicate Valid()
      reads this
    {
      gameDataInitialized ==> mods != null
    }

    /**
     * A new framework. The member initialisers live in `REFramework.hpp`, which is not part
     * of this model: the values below (not initialised, first frame, no keys, no error, no
     * render target) are the evident ones, and the initial `m_drawUI` is a parameter.
     */
    constructor (menuKey: Byte, drawUIAtStart: bool)
      ensures State() == FwState(false, true, drawUIAtStart, seq(256, _ => 0), "", false, Null)
      ensures this.menuKey == menuKey && mods == null && Valid()
    {
      this.menuKey := menuKey;
      initialized, firstFrame, drawUI := false, true, drawUIAtStart;
      lastKeys := seq(256, _ => 0);
      error, gameDataInitialized, renderTargetView := "", false, Null;
      mods := null;
    }

    /** `cleanupRenderTarget`. */
    method CleanupRenderTarget() returns (effects: seq<Effect>)
      modifies this
      ensures (State(), effects) == CleanupStep(old(State()))
      ensures mods == old(mods)
    {
      effects := [];
      if renderTargetView != Null {
        effects := [ReleaseRenderTarget(renderTargetView)];
        renderTargetView := Null;
      }
    }

    /** `createRenderTarget`. */
    method CreateRenderTarget(env: D3DEnv) returns (effects: seq<Effect>)
      modifies this
      ensures (State(), effects) == CreateRenderTargetStep(old(State()), env)
      ensures mods == old(mods)
    {
      effects := CleanupRenderTarget();
      if env.backBufferOk {
        renderTargetView := env.createdView;
        effects := effects + [Effect.CreateRenderTarget(env.createdView)];
      }
    }

    /** `initialize`. */
    method Initialize(env: D3DEnv) returns (ok: bool, effects: seq<Effect>)
      modifies this
      ensures (State(), ok, effects) == InitializeStep(old(State()), env)
      ensures mods == old(mods)
    {
      if initialized {
        return true, [];
      }
      if env.device == Null || env.swapChain == Null {
        return false, [];
      }
      effects := [InstallMessageHook];
      if firstFrame {
        effects := effects + [CreateDInputHook];
      } else {
        effects := effects + [SetDInputWindow];
      }
      var e := CreateRenderTarget(env);
      effects := effects + e;
      if !env.win32InitOk || !env.dx11InitOk {
        return false, effects;
      }
      if firstFrame {
        firstFrame := false;
        effects := effects + [LaunchGameDataInit];
      }
      ok := true;
    }

    /** `drawUI`; the mods' `onDrawUI` calls are returned when the mods' panel is shown. */
    method DrawUI(ui: UiInput) returns (effects: seq<Effect>, calls: seq<ModCall>)
      requires Valid()
      modifies this
      ensures mods == old(mods) && Valid()
      ensures (State(), effects) == DrawUIStep(old(State()), ui)
      ensures calls == if old(drawUI) && Status(old(State())) == ModsUI then EachMod(mods.mods, Callback.DrawUI) else []
    {
      calls := [];
      if !drawUI {
        return [AcknowledgeInput, MouseCursor(false)], calls;
      }
      var input := if ui.wantCaptureKeyboard then IgnoreInput else AcknowledgeInput;
      var status := Status(State());
      if status == ModsUI {
        calls := mods.OnDrawUI();
      }
      effects := [input, MouseCursor(true), StatusPanel(status)];
      drawUI := !ui.closeClicked;
    }

    /** `onFrame`; the mods' `onFrame` and `onDrawUI` calls are returned. */
    method OnFrame(env: D3DEnv, ui: UiInput) returns (effects: seq<Effect>, calls: seq<ModCall>)
      requires Valid()
      modifies this
      ensures mods == old(mods) && Valid()
      ensures (State(), effects) == FrameStep(old(State()), env, ui)
      ensures ModsRun(old(State())) ==>
        calls == EachMod(mods.mods, Frame) + (if old(drawUI) then EachMod(mods.mods, Callback.DrawUI) else [])
      ensures !ModsRun(old(State())) ==> calls == []
    {
      if !initialized {
        var ok;
        ok, effects := Initialize(env);
        calls := [];
        if !ok {
          return;
        }
        initialized := true;
        return;
      }
      effects := [];
      calls := [];
      if error == "" && gameDataInitialized {
        effects := [ModsOnFrame];
        calls := mods.OnFrame();
      }
      var e, c := DrawUI(ui);
      effects := effects + e + [RenderTo(renderTargetView)];
      calls := calls + c;
    }

    /** `onReset`. */
    method OnReset() returns (effects: seq<Effect>)
      modifies this
      ensures (State(), effects) == ResetStep(old(State()))
      ensures mods == old(mods)
    {
      effects := CleanupRenderTarget();
      initialized := false;
    }

    /**
     * `onMessage`: the ImGui handler is consulted only on an initialised framework with the
     * UI shown; `handled` is what it returns. The result says whether the game gets the message.
     */
    method OnMessage(handled: bool, wantMouse: bool, wantKeyboard: bool, wantText: bool)
      returns (pass: bool, handlerCalled: bool)
      ensures handlerCalled <==> initialized && drawUI
      ensures pass == MessagePasses(State(), handled, wantMouse, wantKeyboard, wantText)
    {
      if !initialized {
        return true, false;
      }
      handlerCalled := drawUI;
      if drawUI && handled {
        if wantMouse || wantKeyboard || wantText {
          return false, handlerCalled;
        }
      }
      pass := true;
    }

    /** `onDirectInputKeys`. */
    method OnDirectInputKeys(keys: Keys) returns (effects: seq<Effect>)
      modifies this
      ensures (State(), effects) == KeysStep(old(State()), keys, menuKey)
      ensures mods == old(mods)
    {
      effects := [];
      if keys[menuKey] != 0 && lastKeys[menuKey] == 0 {
        drawUI := !drawUI;
        if !drawUI && gameDataInitialized {
          effects := [SaveConfig];
        }
      }
      lastKeys := keys;
    }

    /**
     * The body of the game-data thread: the mod list is built and initialised (each mod's
     * own result is `init`), then `m_error` is set from the first failing mod's message (or
     * kept when every mod succeeds) and game data is marked initialised.
     */
    method RunGameDataInit(developer: bool, init: ModKind -> Option<string>) returns (calls: seq<ModCall>)
      modifies this
      ensures fresh(mods) && mods.mods == Registered(developer) && Valid()
      ensures NoFailureBefore(mods.mods, init, |mods.mods|) ==>
        State() == GameDataInitStep(old(State()), None) &&
        calls == EachMod(mods.mods, Callback.Initialize) + [ConfigOpened(ConfigFile)] + EachMod(mods.mods, ConfigLoad)
      ensures forall k :: 0 <= k < |mods.mods| && NoFailureBefore(mods.mods, init, k) && init(mods.mods[k]).Some? ==>
        State() == GameDataInitStep(old(State()), init(mods.mods[k])) &&
        calls == EachMod(mods.mods[..k + 1], Callback.Initialize)
    {
      mods := new ModList(developer);
      var e;
      e, calls := mods.OnInitialize(init);
      ghost var before := State();
      if e.Some? {
        if e.value == "" {
          error := UnknownErrorMessage;
        } else {
          error := e.value;
        }
      }
      gameDataInitialized := true;
      assert State() == GameDataInitStep(before, e);
      if e.Some? {
        ghost var k0 :| 0 <= k0 < |mods.mods| && NoFailureBefore(mods.mods, init, k0) && e == init(mods.mods[k0]) &&
          calls == EachMod(mods.mods[..k0 + 1], Callback.Initialize);
        forall k | 0 <= k < |mods.mods| && NoFailureBefore(mods.mods, init, k) && init(mods.mods[k]).Some?
          ensures k == k0
        {
          FirstFailureUnique(mods.mods, init, k, k0);
        }
      }
    }
  }
}

# RE2 Mod Framework — a Dafny model of its control logic

RE2 Mod Framework injects an overlay into Resident Evil 2. It hooks the D3D11 present call and draws an
ImGui window, and it fans the frame, UI and configuration callbacks out to a list of mods. The `Speedrun`
mod shows game and inventory time, health, rank and the nearby enemies' hit points. The
`PositionHooks` mod detours three game functions and brackets each call with the mods' pre and
post callbacks.

This project models the sequential control logic of that core and proves properties of the model:

- `Common.dfy`: shared types. These are `Option`, `Byte`/`U32`/`U64`, and `Ptr` with `Null`.
- `Fnv.dfy`: the FNV-1a string hash `utility::hashFnv1a`, its variant `hashFnv1b` and the `_fnv`
  literal (`src/utility/String.hpp`). Plain `char` is taken as signed, as on MSVC, so bytes of
  0x80 and above are sign-extended.
- `SpeedrunSettings.dfy`: the declarations in `src/Speedrun.h`. These are the window flags, the
  toggle defaults, the panel labels and the order of the labels.
- `Speedrun.dfy`: `src/Speedrun.cpp`. It covers the duration text of `display`, `get_nanos`,
  `drawIngameTime`, the panel choice of `onFrame`/`drawStats`, and the walk over enemy controllers
  in `drawEnemies` (module `SpeedrunEnemies`).
- `Mods.dfy`: the mod list of `src/Mods.cpp`. It covers registration, initialisation with early
  exit and config load, and the frame and UI fan-out.
- `PositionHooks.dfy`: `src/PositionHooks.cpp`. It covers the gated pre/original/post dispatch of
  the three hook sites, and the scan/resolve/create chain of `onInitialize`.
- `Framework.dfy`: the `REFramework` lifecycle of `src/REFramework.cpp`. It covers the flags
  changed by `onFrame`, `initialize`, `onReset`, `onMessage`, `onDirectInputKeys` and
  `drawUI`, and the game-data initialisation.

Imperative code becomes classes whose methods change their fields:
- `ModList` for `Mods`;
- `PositionHooks` and `HookRegistry` (the global `g_hook`) for the hooks mod;
- `REFramework` for the framework;
- `StringStream` for the stream that `display` writes.

Each such method is proved equal to a pure step function, and the lemmas are stated about the
step functions.
Loops over the mod list, the controller array and the child chain remain loops with invariants.

Things the code calls but whose bodies are not part of this model become parameters:
- the byte scanner;
- `calculateAbsolute` and `FunctionHook::create`;
- the hooked game functions;
- each mod's `onInitialize`;
- `isReady()`;
- the game-memory accessors (`getField`, `isManagedObject`, `isA`, `childComponent`);
- the D3D11 and ImGui results.

What the code asks of D3D11, ImGui and the input hooks is recorded as an effect trace.

## Model

| member | source | states |
|---|---|---|
| Fnv.MsvcChar | src/utility/String.hpp:20 | `*s` as a signed 8-bit `char`: in [-128, 128), congruent to the byte mod 256, negative exactly for bytes of 0x80 and above |
| Fnv.XorOperand | src/utility/String.hpp:20 | the right operand of `h ^ *s`: the signed `char` converted to `unsigned int`; fixed by `XorOperandIsConvertedChar` |
| Fnv.Step1a | src/utility/String.hpp:20 | one round of `hashFnv1a`, `(h ^ *s) * 0x01000193` in 32-bit arithmetic on the sign-extended operand `XorOperand`; `FoldCons` and `StepAgreesBelow0x80` are about it |
| Fnv.Step1b | src/utility/String.hpp:25 | one round of `hashFnv1b`, a 64-bit multiply truncated to 32 bits; `StepsAgree` equates it with `Step1a` |
| Fnv.HashFnv1a | src/utility/String.hpp:18-21 | `hashFnv1a` as written, recursing until the NUL; `HashIsFold`, `HashConcat` and `HashIgnoresAfterNul` are about it |
| Fnv.HashFnv1b | src/utility/String.hpp:23-26 | `hashFnv1b` as written; `Fnv1bEqualsFnv1a` equates it with `HashFnv1a` |
| Fnv.FnvLiteral | src/utility/String.hpp:29-31 | the `_fnv` literal, `hashFnv1a` of the literal's bytes from the default basis; `LiteralIsFold` and `LiteralStopsAtNul` are about it |
| Fnv.XorOperandIsConvertedChar | src/utility/String.hpp:20 | the operand of `h ^ *s` is the signed char converted to `unsigned int`: the byte itself below 0x80, 0xFFFFFF00 + byte above |
| Fnv.FoldConcat | src/utility/String.hpp:18-21 | the left fold over `a + b` from `h` is the fold over `b` from the fold over `a` |
| Fnv.FoldCons | src/utility/String.hpp:20 | one character: the fold of `c·rest` is the fold of `rest` from `Step1a(h, c)`, the round on the sign-extended character |
| Fnv.HashIsFold | src/utility/String.hpp:18-21 | `hashFnv1a` of a NUL-terminated string is the left fold of its characters before the NUL, whatever follows |
| Fnv.HashUnfoldsOneChar | src/utility/String.hpp:18-21 | for a non-NUL first character, `hashFnv1a(c·rest, h) == hashFnv1a(rest, round(h, c))` |
| Fnv.HashConcat | src/utility/String.hpp:20 | the hash of `a·s` from `h` is the hash of `s` from the fold over `a` |
| Fnv.HashIgnoresAfterNul | src/utility/String.hpp:20 | bytes after the first NUL have no effect on the hash |
| Fnv.StepsAgree | src/utility/String.hpp:20-25 | a 64-bit multiply truncated to 32 bits gives the same round as the wrapping 32-bit multiply |
| Fnv.Fnv1bEqualsFnv1a | src/utility/String.hpp:18-26 | `hashFnv1b` equals `hashFnv1a` on every input and start value |
| Fnv.EmptyLiteralIsBasis | src/utility/String.hpp:15-31 | `""_fnv` is the offset basis 0x811C9DC5 |
| Fnv.LiteralIsFold | src/utility/String.hpp:29-31 | `s_fnv` is the fold of `s` from the default basis, i.e. `hashFnv1a(s)` |
| Fnv.LiteralStopsAtNul | src/utility/String.hpp:29-31 | a literal with an embedded NUL hashes as its prefix before the NUL |
| Fnv.AgreesWithOctetFnv1aBelow0x80 | src/utility/String.hpp:18-21 | on bytes below 0x80 the hash is the octet FNV-1a of the IETF draft "The FNV Non-Cryptographic Hash Algorithm" |
| Fnv.StepAgreesBelow0x80 | src/utility/String.hpp:20 | one round on a byte below 0x80 is the octet FNV-1a round |
| Fnv.DiffersFromOctetFnv1a | src/utility/String.hpp:20 | for the single byte 0x80 the sign extension gives 0x04F3B29F where octet FNV-1a gives 0x850B939F |
| SpeedrunSettings.WindowFlags | src/Speedrun.h:38-46 | unlocked flags are exactly the six base flags; locked flags keep the base flags, add `NoMove` and all of `NoInputs`, and change no other bit |
| SpeedrunSettings.LockedAddsNoMoveAndNoInputs | src/Speedrun.h:45 | locked = unlocked bit-or `NoMove` bit-or `NoInputs`, a superset of the unlocked flags |
| SpeedrunSettings.LockDifferenceIsNoMoveAndNoInputs | src/Speedrun.h:39-45 | the two results differ only inside the bits of `NoMove` and `NoInputs`; exactly `NoMove` and `NoMouseInputs` change, as `NoNav` is already set |
| SpeedrunSettings.DefaultToggleValues | src/Speedrun.h:48-53 | locked on, enabled off, in-game time, health, rank and local enemies on |
| SpeedrunSettings.InfoOrderMatchesLabels | src/Speedrun.h:34-36 | `info_order` starts as [1, 2, 3, 4], one entry per element of the four `info_labels` |
| Speedrun.CastDown | src/Speedrun.cpp:10-14 | `duration_cast` truncates toward zero: for non-negative counts `r*u <= count < r*u + u`, for negative ones `r*u - u < count <= r*u <= 0` |
| Speedrun.Fields | src/Speedrun.cpp:10-14 | the reference split of the truncated whole seconds into hours, minutes and seconds; `FieldsDecompose` states its bounds |
| Speedrun.FieldsDecompose | src/Speedrun.cpp:10-14 | for `ns >= 0`: hours >= 0, minutes and seconds in [0, 60), and h·3600 + m·60 + s = ⌊ns / 10^9⌋; for negative `ns` the same with non-positive fields |
| Speedrun.SplitDuration | src/Speedrun.cpp:10-14 | the cascade of `duration_cast` and `-=` yields the reference decomposition `Fields(ns)` |
| Speedrun.CascadeMatchesFields | src/Speedrun.cpp:10-14 | hours, then minutes of the rest, then seconds of the rest, equal `Fields(ns)` for every input |
| Speedrun.DigitChar | src/Speedrun.cpp:15-17 | a digit's character is in '0'..'9' and reads back as that digit |
| Speedrun.DecimalDigits | src/Speedrun.cpp:15-17 | a decimal rendering is non-empty and made of digits |
| Speedrun.Decimal | src/Speedrun.cpp:15-17 | how `<<` prints an integer count: a '-' for negative values, then the digits |
| Speedrun.DisplayText | src/Speedrun.cpp:15-17 | the text `display` writes for given fields; `DisplayLayout` states its layout |
| Speedrun.Padded | src/Speedrun.cpp:15-17 | `setw` right-aligns: the length is max(width, text length), the text is the suffix, and the rest is the fill character |
| Speedrun.DecimalRoundTrip | src/Speedrun.cpp:15-17 | reading the decimal rendering of `n` gives back `n` |
| Speedrun.LeadingZerosKeepValue | src/Speedrun.cpp:15-17 | '0' padding on the left does not change the value that is read |
| Speedrun.PaddedFieldLength | src/Speedrun.cpp:15-17 | a `setw(2)` field with fill '0' is at least two characters, exactly two below 100, and is the plain digits from 100 on |
| Speedrun.PaddedFieldIsDigits | src/Speedrun.cpp:15-17 | a padded field is made only of digits |
| Speedrun.PaddedFieldReadsBack | src/Speedrun.cpp:15-17 | a padded field reads back as its number |
| Speedrun.DecimalDigitsLength | src/Speedrun.cpp:15-17 | one digit below 10, two below 100, at least two from 10 on |
| Speedrun.DisplayLayout | src/Speedrun.cpp:10-17 | for `ns >= 0` the text is `<h>h:<m>m:<s>s`, with minutes and seconds in two characters and hours in at least two, each reading back as the fields of `Fields(ns)` |
| Speedrun.StringStream.constructor | src/Speedrun.cpp:110 | a fresh `std::stringstream` is empty with fill ' ' |
| Speedrun.Display | src/Speedrun.cpp:7-20 | appends `DisplayText(Fields(ns))` to the stream and restores its original fill |
| Speedrun.SignedCount | src/Speedrun.cpp:23-24 | the `uint64_t` field as the signed 64-bit count of `microseconds`: in the int64 range and congruent mod 2^64 |
| Speedrun.GetNanos | src/Speedrun.cpp:22-26 | the count times 1000 in nanoseconds: divisible by 1000 with quotient the microsecond count, equal to `t·1000` below 2^63, and in the int64 range (the signed-overflow bound is the precondition) |
| Speedrun.DisplayedSecondsOfClockField | src/Speedrun.cpp:22-26 | for a clock field whose nanoseconds fit, the displayed h·3600 + m·60 + s is ⌊t / 10^6⌋ |
| Speedrun.DrawIngameTime | src/Speedrun.cpp:106-117 | the game-time and inventory-time labels are the display texts of the two clock fields, each in a fresh stream |
| Speedrun.OnFrame | src/Speedrun.cpp:39-43 | the stats window is drawn exactly when the overlay is enabled |
| Speedrun.Panels | src/Speedrun.cpp:85-99 | the panels whose toggles are on, in drawing order; `DisabledNoteIffNothingSelected` and `DefaultFrames` are about it |
| Speedrun.DrawStats | src/Speedrun.cpp:73-104 | the items of `drawStats`: the system time, a separator, the selected panels, and the note when none is selected |
| Speedrun.DisabledNoteIffNothingSelected | src/Speedrun.cpp:96-102 | the "You disabled everything" line appears exactly when enabled with all four panels off, and then it follows only the system time and the separator |
| Speedrun.DefaultFrames | src/Speedrun.cpp:39-43 | with the default toggles nothing is drawn; once enabled, all four panels appear in order |
| SpeedrunEnemies.SearchFindsFirst | src/Speedrun.cpp:152-157 | the child walk stops at the first position that is null, returns to the controller, or holds a HitPointController, and returns that component or null |
| SpeedrunEnemies.Search | src/Speedrun.cpp:152-157 | the child walk from position `k`, bounded by any position where the walk leaves the loop (null, the controller, or a HitPointController); `SearchFindsFirst` states where it stops and what it returns |
| SpeedrunEnemies.RowsFrom | src/Speedrun.cpp:147-164 | the cells the outer loop draws from index `i` on; `RowsSound`, `RowsIncreasing`, `RowsComplete` and `StopsAtFirstNull` are about it |
| SpeedrunEnemies.FirstHitPointIsSearch | src/Speedrun.cpp:152-157 | any position where the walk leaves the loop (null, the controller, or a HitPointController) bounds a search that gives `FirstHitPoint` |
| SpeedrunEnemies.FindHitPointController | src/Speedrun.cpp:149-157 | the inner loop returns the first HitPointController on the child chain, or null; a non-null result is a HitPointController |
| SpeedrunEnemies.HitPointBeforeForeignCycle | src/Speedrun.cpp:152-157 | for the chain 1 → 2 → 3 → 3 → … with 2 a HitPointController, the walk leaves the loop and finds 2, although the chain never returns to null or the controller |
| SpeedrunEnemies.RowsSound | src/Speedrun.cpp:147-163 | each drawn cell is for a reached (no earlier null), managed controller with a hit-point controller, and has `SameLine` exactly when `i % 5 != 0` |
| SpeedrunEnemies.RowsIncreasing | src/Speedrun.cpp:147-164 | the cells are drawn in strictly increasing controller order |
| SpeedrunEnemies.RowsComplete | src/Speedrun.cpp:147-164 | every reached, managed controller with a hit-point controller gets a cell |
| SpeedrunEnemies.StopsAtFirstNull | src/Speedrun.cpp:150 | no cell is drawn at or after the first null controller |
| SpeedrunEnemies.DrawEnemies | src/Speedrun.cpp:139-168 | no table without a controller array; otherwise a table of 5 columns whose cells are exactly `RowsFrom(arr, 0)` |
| Mods.Registered | src/Mods.cpp:8-14 | Speedrun comes first, and DeveloperTools is present (second) exactly in a `DEVELOPER` build |
| Mods.ModList.constructor | src/Mods.cpp:8-14 | the list is the registration order |
| Mods.ModList.OnInitialize | src/Mods.cpp:16-34 | an error exactly when some mod fails; then the first failing mod's optional is returned unchanged and only the mods up to it were initialised; otherwise every mod initialised in order, the config file opened, every `onConfigLoad` in order, and no error |
| Mods.ModList.OnFrame | src/Mods.cpp:36-40 | each mod's `onFrame` exactly once, in list order |
| Mods.ModList.OnDrawUI | src/Mods.cpp:42-46 | each mod's `onDrawUI` exactly once, in list order |
| Mods.ConfigLoadedOnlyAfterAllInitialised | src/Mods.cpp:26-33 | in a successful trace every `onInitialize` comes before the config is opened, and every `onConfigLoad` after, in list order |
| Mods.FailureLoadsNoConfig | src/Mods.cpp:20-23 | a failed trace holds only `onInitialize` calls, no config is opened, and the failing mod's call is the last |
| PositionHooks.ProtocolShape | src/PositionHooks.cpp:64-82 | exactly one original call, with the unmodified arguments, preceded by every mod's pre callback and followed by every mod's post callback when ready, and alone when not |
| PositionHooks.Protocol | src/PositionHooks.cpp:64-130 | the events of one hooked call; `ProtocolShape`, `NotReadyIsCallThrough` and `PreBeforePost` state its shape |
| PositionHooks.NotReadyIsCallThrough | src/PositionHooks.cpp:65-67 | when not ready the only event is the original call |
| PositionHooks.PreBeforePost | src/PositionHooks.cpp:69-79 | every pre callback comes before every post callback, and each callback gets the transform or the camera controller of the call |
| PositionHooks.Dispatch | src/PositionHooks.cpp:64-130 | the trace of a hook site is its protocol, and the result is exactly the original's result |
| PositionHooks.HookRegistry.constructor | src/PositionHooks.cpp:7 | `g_hook` starts null |
| PositionHooks.HookRegistry.UpdateTransformHook | src/PositionHooks.cpp:84-86 | the static forwarder follows the transform protocol through `g_hook` and returns the original's result |
| PositionHooks.HookRegistry.UpdateCameraControllerHook | src/PositionHooks.cpp:108-110 | the same for UpdateCameraController, with `a1` and the camera controller |
| PositionHooks.HookRegistry.UpdateCameraController2Hook | src/PositionHooks.cpp:132-134 | the same for UpdateCameraController2 |
| PositionHooks.PositionHooks.constructor | src/PositionHooks.cpp:9-11 | `g_hook` points to the new instance, and no hook is made yet |
| PositionHooks.PositionHooks.OnInitialize | src/PositionHooks.cpp:13-62 | result, steps and hook members are those of the corrected chain `CheckedInitChain` |
| PositionHooks.UpdateTransformHookInternal | src/PositionHooks.cpp:64-82 | the transform protocol on `(t, a2, a3)`, returning the original's result |
| PositionHooks.UpdateCameraControllerHookInternal | src/PositionHooks.cpp:88-106 | the camera protocol on `(a1, cameraController)`, returning the original's result |
| PositionHooks.UpdateCameraController2HookInternal | src/PositionHooks.cpp:112-130 | the second camera protocol, returning the original's result |
| PositionHooks.CheckedChainOutcome | src/PositionHooks.cpp:13-62 | the result is the message of the first failing step (or `Mod::onInitialize()` when all succeed); steps run in the order scan/resolve/create of UpdateTransform, then UpdateCameraController, then UpdateCameraController2, with no step skipped up to the one that ends the chain; each hook member is made exactly when the chain got that far, and no later hook is made |
| PositionHooks.InitChain | src/PositionHooks.cpp:13-62 | `onInitialize` as written, defined only where the camera dereference is safe; `CheckedAgreesWhereDefined` relates it to the corrected chain |
| PositionHooks.CheckedInitChain | src/PositionHooks.cpp:13-62 | the corrected `onInitialize`, with the camera scan checked; `CheckedChainOutcome` states its outcome |
| PositionHooks.StageOf | src/PositionHooks.cpp:13-62 | the step at which the corrected chain stops, or `AllHooked` |
| PositionHooks.CheckedAgreesWhereDefined | src/PositionHooks.cpp:35-38 | wherever the code as written is defined, the corrected chain gives the same outcome |
| PositionHooks.TransformTargetSkipsOpcode | src/PositionHooks.cpp:18-28 | the UpdateTransform hook targets `calculateAbsolute(match + 1)`, resolved from the byte after the `E8` opcode |
| PositionHooks.TransformHookDetoursCallDestination | src/PositionHooks.cpp:18-24 | if `calculateAbsolute(p)` is `p + 4 + rel32(p)` for a signed 32-bit displacement `rel32(p)`, the hook targets the destination of the `CALL rel32` (next instruction + displacement), per Intel 64 and IA-32 SDM Vol. 2A, "CALL—Call Procedure" |
| PositionHooks.MissingCameraPatternIsUnchecked | src/PositionHooks.cpp:35-38 | a concrete environment where the UpdateCameraController pattern is missing: the code as written dereferences an empty optional there, and the corrected chain reports the missing pattern |
| Framework.Status | src/REFramework.cpp:162-168 | the mods' UI exactly with no error and initialised game data, "initializing" exactly while game data is not initialised, the error text exactly otherwise |
| Framework.CleanupStep | src/REFramework.cpp:307-312 | `cleanupRenderTarget` on the flags; `CleanupIdempotent` is about it |
| Framework.CreateRenderTargetStep | src/REFramework.cpp:297-305 | `createRenderTarget` on the flags; `CreateRenderTargetReplacesView` is about it |
| Framework.InitializeStep | src/REFramework.cpp:195-294 | `initialize` on the flags; `InitializeWhenInitialised`, `InitializeWithoutDevice` and `LaunchOnlyOnFirstPass` are about it |
| Framework.DrawUIStep | src/REFramework.cpp:135-171 | `drawUI` on the flags; `DrawUIShowsStatus` is about it |
| Framework.FrameStep | src/REFramework.cpp:43-76 | `onFrame` on the flags; `UninitialisedFrameOnlyInitialises` and `ModsRunOnlyWhenReady` are about it |
| Framework.ResetStep | src/REFramework.cpp:78-84 | `onReset` on the flags; `ResetClears` is about it |
| Framework.KeysStep | src/REFramework.cpp:104-116 | `onDirectInputKeys` on the flags; `KeysToggleOnRisingEdge` and `HoldingKeyDoesNotToggle` are about it |
| Framework.GameDataInitStep | src/REFramework.cpp:278-288 | the end of the game-data thread on the flags; `GameDataInitNormalisesError` is about it |
| Framework.InitErrorMessage | src/REFramework.cpp:280-286 | an empty error becomes "An unknown error has occurred.", a non-empty one is kept verbatim, no error keeps the current one |
| Framework.MessagePasses | src/REFramework.cpp:86-101 | always passes while uninitialised; blocked exactly when initialised, the UI shown, the handler took the message, and ImGui wants mouse, keyboard or text |
| Framework.UninitialisedFrameOnlyInitialises | src/REFramework.cpp:46-54 | an uninitialised frame only attempts `initialize`; `m_initialized` becomes its success, and no mod runs, nothing is drawn and nothing is rendered |
| Framework.ModsRunOnlyWhenReady | src/REFramework.cpp:61-63 | the mods' `onFrame` is requested exactly when initialised, with no error and with game data initialised |
| Framework.InitializeWhenInitialised | src/REFramework.cpp:196-198 | `initialize` on an initialised framework returns true and changes nothing |
| Framework.InitializeWithoutDevice | src/REFramework.cpp:206-209 | with a null device or swap chain `initialize` returns false and changes no flag |
| Framework.LaunchOnlyOnFirstPass | src/REFramework.cpp:195-294 | the game-data thread is launched exactly by a successful pass with `m_firstFrame` set, which clears it; `initialize` leaves `m_initialized`, `m_drawUI`, `m_error`, `m_gameDataInitialized` and `m_lastKeys` unchanged (it may replace the render target, see `CreateRenderTargetReplacesView`) |
| Framework.CreateRenderTargetReplacesView | src/REFramework.cpp:297-305 | the view becomes the created one exactly when the back buffer is available, else null; a held view is released exactly when there was one; no other flag changes |
| Framework.DrawUIShowsStatus | src/REFramework.cpp:135-171 | a hidden UI changes nothing, hands input back and hides the cursor; a shown UI withholds input exactly while ImGui captures the keyboard, shows the cursor and the `Status` panel, stays shown exactly unless closed, and changes no other flag |
| Framework.ResetClears | src/REFramework.cpp:78-84 | `onReset` leaves the framework uninitialised with a null render target, and releases exactly a non-null one |
| Framework.CleanupIdempotent | src/REFramework.cpp:307-312 | a second `cleanupRenderTarget` releases nothing and changes nothing |
| Framework.KeysToggleOnRisingEdge | src/REFramework.cpp:104-116 | `m_drawUI` flips exactly on a rising edge of the menu key, `m_lastKeys` becomes the keys, and the config is saved exactly on a toggle that closes the UI while game data is initialised |
| Framework.HoldingKeyDoesNotToggle | src/REFramework.cpp:104-116 | a second poll with the same keys changes nothing and saves nothing |
| Framework.GameDataInitNormalisesError | src/REFramework.cpp:278-288 | after the game-data thread game data is initialised with the normalised error; an error from the mods always shows as the error panel |
| Framework.LaunchedAtMostOnce | src/REFramework.cpp:268-292 | over any sequence of frames, resets, key polls and thread completions the game-data thread is launched at most once, and never unless the run starts on the first frame |
| Framework.REFramework.constructor | src/REFramework.cpp:21-39 | a new framework: not initialised, first frame, no keys, no error, no game data, no render target |
| Framework.REFramework.CleanupRenderTarget | src/REFramework.cpp:307-312 | the new state and the release are those of `CleanupStep` |
| Framework.REFramework.CreateRenderTarget | src/REFramework.cpp:297-305 | cleans up, then takes a view on the back buffer if it is available (`CreateRenderTargetStep`) |
| Framework.REFramework.Initialize | src/REFramework.cpp:195-294 | the new flags, the result and the requested effects are those of `InitializeStep` |
| Framework.REFramework.DrawUI | src/REFramework.cpp:135-171 | `DrawUIStep`: when hidden, input goes back to the game and the cursor is hidden; when shown, keyboard input is withheld while ImGui captures it, the status panel is drawn, and the close button clears `m_drawUI`; the mods' `onDrawUI` runs exactly with the mods' panel |
| Framework.REFramework.OnFrame | src/REFramework.cpp:43-76 | `FrameStep`; when the mods run, their `onFrame` in order and then (UI shown) their `onDrawUI`; otherwise no mod call |
| Framework.REFramework.OnReset | src/REFramework.cpp:78-84 | `ResetStep` |
| Framework.REFramework.OnMessage | src/REFramework.cpp:86-101 | the ImGui handler is consulted exactly when initialised with the UI shown; the result is `MessagePasses` |
| Framework.REFramework.OnDirectInputKeys | src/REFramework.cpp:104-116 | `KeysStep` with the framework's menu key |
| Framework.REFramework.RunGameDataInit | src/REFramework.cpp:274-289 | a freshly registered mod list is initialised and game data marked initialised; when every mod succeeds the error is kept and the calls are all inits, the config open and all config loads; when mod `k` is the first to fail the error is that mod's message, normalised, and the calls are the inits up to `k` |

## Left out

- I/O, rendering and logging: every D3D11/COM, ImGui and spdlog call is left out. The ones whose
  order matters are recorded as `Effect`s; the rest, including `setupStyle` and the font, are not modelled.
- Concurrency: the game-data thread and `m_inputMutex` are not modelled. The thread body is one
  sequential step (`RunGameDataInit`, `GameDataThreadDone`). `Framework.Apply` accepts a
  `GameDataThreadDone` action at any point of a run: before any launch, and more than once. So
  `LaunchedAtMostOnce` also covers runs the real thread cannot produce.
- `REFramework.hpp`, `Mod.hpp`, `Mods.hpp`, `PositionHooks.hpp` and `imgui.h` are not part of this model.
  - The initial member values in `Framework.REFramework.constructor` are the evident defaults;
    `m_drawUI`'s starting value and `m_menuKey` are constructor parameters.
  - The ImGui window-flag values follow the ImGui 1.7x header.
  - `isReady()` is a parameter of the hook sites.
- The framework's constructor setup is not modelled: the logger, `GetModuleHandle`, the D3D11 hook
  and its callbacks, and `m_valid`. A present becomes `Present` and a resize becomes `ResizeBuffers`.
- The ImGui window closed by its own close button: in `Framework.REFramework.DrawUI` this is a
  parameter (`UiInput.closeClicked`).
- `saveConfig`'s body (each mod's `onConfigSave` and `Config::save`) recorded only as the
  `SaveConfig` effect; `utility::Config` load/save, and each mod's `onConfigLoad`/`onConfigSave`
  body.
- `drawAbout` and the license texts: UI text only.
- `Mods.ModList.OnInitialize`: each mod's own `onInitialize` result is a parameter, and so is
  the result of `Mod::onInitialize()` in `PositionHooks.PositionHooks.OnInitialize`. The mods'
  callbacks themselves live in bodies that are not part of this model, apart from those of Speedrun.
- The byte scanner, `calculateAbsolute`, `FunctionHook`'s trampolines and `create`, and the hooked
  game functions are not modelled; they are fields of `Env` and the `original` parameter.
- `PositionHooks` is not registered by `Mods::Mods` as written, which adds only `Speedrun` and,
  in a `DEVELOPER` build, `DeveloperTools`. So the hook sites take the mod list as a parameter.
- `Speedrun::onDrawUI` (a collapsing header of toggles), `onConfigLoad`, `onConfigSave` and the
  toggle names given to `generateName` are UI and configuration only.
- `drawHealth`, `drawGameRank`, `createColor`, the hit-point ratio text and the `SameLine` x offset
  are floating-point UI. The model keeps which cells are drawn and whether `SameLine` is issued.
- `drawStats`'s window position, size and flags argument are left out, as are the system-time
  label's text, the globals lookups and the enemy-manager null checks. A missing enemy manager or
  controller array is the `None` case of `SpeedrunEnemies.DrawEnemies`.
- `info_order` is declared but no code shown reads it; only its initial value is modelled.
- `narrow`/`widen` in `String.hpp` are declarations without bodies.
- `SpeedrunEnemies.FindHitPointController`: the walk must leave the loop (`Terminates`): at null,
  back at the controller, or at a HitPointController. The code loops forever only on a child
  chain that meets none of the three, and the model does not capture that case.
- `SpeedrunEnemies.DrawEnemies`: it carries the same assumption. Its requires
  (`ReachedChainsEnd`) asks that the child walk of every controller it reaches leaves the loop.
- `Speedrun.GetNanos`: requires that `t·1000` fits in a signed 64-bit count (`NanosFit`). The
  code's signed overflow beyond that is undefined behaviour and is not modelled.
- `Speedrun.DisplayLayout`: the `<h>h:<m>m:<s>s` layout is stated only for non-negative
  durations. For negative ones `Speedrun.Display` still states the text, and
  `Speedrun.FieldsDecompose` states the fields.
- `imgui_color_gradient.cpp` is vendored float UI code and is not modelled.

## Findings

| source | as written | input that shows it | evidently intended | confidence | as-written member | corrected member |
|---|---|---|---|---|---|---|
| src/PositionHooks.cpp:35-38 | the UpdateCameraController scan result is dereferenced (`*updateCameraController`) with no presence check | the UpdateTransform pattern is found and hooked, but the UpdateCameraController pattern is not (the environment of `MissingCameraPatternIsUnchecked`) | stop with "Unable to find UpdateCameraController pattern.", as the other two sites do for a missing pattern | not executed | PositionHooks.MissingCameraPatternIsUnchecked | PositionHooks.CheckedChainOutcome |

/**
 * The declarations of the `Speedrun` mod: its name, its window flags, the overlay's
 * toggles with their default values, and the panel labels.
 *
 * The ImGui window-flag values come from ImGui's `imgui.h` (the 1.7x series that the
 * overlay builds against); that header is not part of this model, so the values below are
 * the one assumption of this module.
 */
module SpeedrunSettings {

  // ImGuiWindowFlags_ bits.
  const NoTitleBar: bv32 := 1 << 0
  const NoResize: bv32 := 1 << 1
  const NoMove: bv32 := 1 << 2
  const NoScrollbar: bv32 := 1 << 3
  const NoCollapse: bv32 := 1 << 5
  const AlwaysAutoResize: bv32 := 1 << 6
  const NoBackground: bv32 := 1 << 7
  const NoMouseInputs: bv32 := 1 << 9
  const NoFocusOnAppearing: bv32 := 1 << 12
  const NoBringToFrontOnFocus: bv32 := 1 << 13
  const NoNavInputs: bv32 := 1 << 18
  const NoNavFocus: bv32 := 1 << 19
  const NoNav: bv32 := NoNavInputs | NoNavFocus
  const NoDecoration: bv32 := NoTitleBar | NoResize | NoScrollbar | NoCollapse
  const NoInputs: bv32 := NoMouseInputs | NoNavInputs | NoNavFocus

  /** The six flags the overlay window always has. */
  const BaseFlags: bv32 :=
    AlwaysAutoResize | NoDecoration | NoBackground | NoBringToFrontOnFocus | NoFocusOnAppearing | NoNav

  /** `Speedrun::getName()`. */
  const Name: string := "Speedrun"

  /** `Speedrun::COLUMNS`, the number of columns of the enemy table. */
  const Columns: nat := 5

  /** `Speedrun::info_labels`. */
  const InfoLabels: seq<string> := ["IGT", "Health", "Rank", "Enemies"]

  /** The initial value of `Speedrun::info_order`: one 1-based label position per panel. */
  const InitialInfoOrder: seq<int> := [1, 2, 3, 4]

  /**
   * `Speedrun::windowFlags(locked)`: a locked window also cannot be moved and takes no
   * input; an unlocked one has exactly the base flags.
   */
  function WindowFlags(locked: bool): (r: bv32)
    ensures !locked ==> r == BaseFlags
    ensures r & BaseFlags == BaseFlags
    ensures r & !(NoMove | NoInputs) == BaseFlags & !(NoMove | NoInputs)
    ensures locked <==> r & NoMove != 0
    ensures locked <==> r & NoInputs == NoInputs
  {
    if locked then BaseFlags | NoMove | NoInputs else BaseFlags
  }

  /** The locked flags are the unlocked ones plus `NoMove` and `NoInputs`, so they include them. */
  lemma LockedAddsNoMoveAndNoInputs()
    ensures WindowFlags(true) == WindowFlags(false) | NoMove | NoInputs
    ensures WindowFlags(true) & WindowFlags(false) == WindowFlags(false)
  {
  }

  /**
   * Locked and unlocked flags differ only inside `NoMove | NoInputs`; since the base flags
   * already hold `NoNav`, the bits that actually change are `NoMove` and `NoMouseInputs`.
   */
  lemma LockDifferenceIsNoMoveAndNoInputs()
    ensures (WindowFlags(true) ^ WindowFlags(false)) & !(NoMove | NoInputs) == 0
    ensures WindowFlags(true) ^ WindowFlags(false) == NoMove | NoMouseInputs
  {
  }

  /** The values of the mod's six `ModToggle`s. */
  datatype Toggles = Toggles(
    locked: bool,
    enabled: bool,
    ingame: bool,
    health: bool,
    gameRank: bool,
    localEnemies: bool)

  /** The toggles as constructed: locked, disabled, every panel selected. */
  const DefaultToggles: Toggles := Toggles(true, false, true, true, true, true)

  /** The defaults: the overlay starts disabled, locked, with all four panels on. */
  lemma DefaultToggleValues()
    ensures DefaultToggles.locked && !DefaultToggles.enabled
    ensures DefaultToggles.ingame && DefaultToggles.health
    ensures DefaultToggles.gameRank && DefaultToggles.localEnemies
  {
  }

  /** `info_order` starts as the identity order over the four labels. */
  lemma InfoOrderMatchesLabels()
    ensures |InitialInfoOrder| == |InfoLabels| == 4
    ensures forall i :: 0 <= i < 4 ==> InitialInfoOrder[i] == i + 1
  {
  }
}

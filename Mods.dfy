/**
 * The mod list (`Mods`): which mods are registered, and how initialisation, config loading,
 * frames and UI drawing are fanned out to them. A mod's own `onInitialize` result is a
 * parameter (the mods' bodies and `Mod.hpp` are not part of this model); what the list does
 * with the mods is recorded as a sequence of calls.
 */
module Mods {
  import opened Common

  /** The mods the list can hold. */
  datatype ModKind = Speedrun | DeveloperTools

  /** The file `Mods::onInitialize` loads the configuration from. */
  const ConfigFile: string := "re2_fw_config.txt"

  /** The mod callbacks the list fans out. */
  datatype Callback = Initialize | ConfigLoad | Frame | DrawUI

  /** A call the list makes: a mod's callback, or opening the config file. */
  datatype ModCall =
    | Call(callback: Callback, mod: ModKind)
    | ConfigOpened(file: string)

  /** The registration order of `Mods::Mods`, with or without the `DEVELOPER` build flag. */
  function Registered(developer: bool): (mods: seq<ModKind>)
    ensures |mods| >= 1 && mods[0] == Speedrun
    ensures DeveloperTools in mods <==> developer
    ensures |mods| == if developer then 2 else 1
  {
    if developer then [Speedrun, DeveloperTools] else [Speedrun]
  }

  /** One call per mod, in list order. */
  function EachMod(mods: seq<ModKind>, callback: Callback): seq<ModCall>
  {
    seq(|mods|, i requires 0 <= i < |mods| => Call(callback, mods[i]))
  }

  /** No mod before index `k` fails to initialise. */
  predicate NoFailureBefore(mods: seq<ModKind>, init: ModKind -> Option<string>, k: int)
  {
    forall j :: 0 <= j < k && j < |mods| ==> init(mods[j]).None?
  }

  class ModList {
    /** `m_mods`. */
    var mods: seq<ModKind>

    /** `Mods::Mods`: Speedrun first, DeveloperTools appended only in a `DEVELOPER` build. */
    constructor (developer: bool)
      ensures mods == Registered(developer)
    {
      mods := [Speedrun];
      if developer {
        mods := mods + [DeveloperTools];
      }
    }

    /**
     * `Mods::onInitialize`: initialises the mods in order and returns the first error
     * unchanged, leaving the later mods uninitialised and the config unloaded; when every
     * mod succeeds it opens the config file, calls every mod's `onConfigLoad` in order and
     * returns no error. `init` is each mod's own `onInitialize` result.
     */
    method OnInitialize(init: ModKind -> Option<string>) returns (e: Option<string>, calls: seq<ModCall>)
      ensures e.Some? <==> !NoFailureBefore(mods, init, |mods|)
      ensures e.Some? ==>
        exists k :: 0 <= k < |mods| && NoFailureBefore(mods, init, k) && e == init(mods[k]) &&
          calls == EachMod(mods[..k + 1], Initialize)
      ensures e.None? ==>
        calls == EachMod(mods, Initialize) + [ConfigOpened(ConfigFile)] + EachMod(mods, ConfigLoad)
    {
      calls := [];
      for i := 0 to |mods|
        invariant NoFailureBefore(mods, init, i)
        invariant calls == EachMod(mods[..i], Initialize)
      {
        calls := calls + [Call(Initialize, mods[i])];
        assert mods[..i + 1] == mods[..i] + [mods[i]];
        var r := init(mods[i]);
        if r.Some? {
          return r, calls;
        }
      }
      assert mods[..|mods|] == mods;
      calls := calls + [ConfigOpened(ConfigFile)];
      ghost var before := calls;
      for i := 0 to |mods|
        invariant calls == before + EachMod(mods[..i], ConfigLoad)
      {
        calls := calls + [Call(ConfigLoad, mods[i])];
        assert mods[..i + 1] == mods[..i] + [mods[i]];
      }
      assert mods[..|mods|] == mods;
      e := None;
    }

    /** `Mods::onFrame`: every mod's `onFrame`, once each, in list order. */
    method OnFrame() returns (calls: seq<ModCall>)
      ensures calls == EachMod(mods, Frame)
    {
      calls := [];
      for i := 0 to |mods|
        invariant calls == EachMod(mods[..i], Frame)
      {
        calls := calls + [Call(Frame, mods[i])];
        assert mods[..i + 1] == mods[..i] + [mods[i]];
      }
      assert mods[..|mods|] == mods;
    }

    /** `Mods::onDrawUI`: every mod's `onDrawUI`, once each, in list order. */
    method OnDrawUI() returns (calls: seq<ModCall>)
      ensures calls == EachMod(mods, DrawUI)
    {
      calls := [];
      for i := 0 to |mods|
        invariant calls == EachMod(mods[..i], DrawUI)
      {
        calls := calls + [Call(DrawUI, mods[i])];
        assert mods[..i + 1] == mods[..i] + [mods[i]];
      }
      assert mods[..|mods|] == mods;
    }
  }

  /** A mod's config is loaded only by a successful initialisation, after every mod has been initialised. */
  lemma ConfigLoadedOnlyAfterAllInitialised(mods: seq<ModKind>, calls: seq<ModCall>)
    requires calls == EachMod(mods, Initialize) + [ConfigOpened(ConfigFile)] + EachMod(mods, ConfigLoad)
    ensures forall i, j :: 0 <= i < j < |calls| && calls[i].Call? && calls[i].callback == ConfigLoad ==> calls[j].Call? && calls[j].callback == ConfigLoad
    ensures forall i :: 0 <= i < |calls| && calls[i].Call? && calls[i].callback == ConfigLoad ==> i > |mods|
    ensures calls[|mods|] == ConfigOpened(ConfigFile)
    ensures forall i :: 0 <= i < |mods| ==> calls[i] == Call(Initialize, mods[i])
    ensures forall i :: 0 <= i < |mods| ==> calls[|mods| + 1 + i] == Call(ConfigLoad, mods[i])
  {
  }

  /** At most one mod is the first to fail. */
  lemma FirstFailureUnique(mods: seq<ModKind>, init: ModKind -> Option<string>, k1: int, k2: int)
    requires 0 <= k1 < |mods| && NoFailureBefore(mods, init, k1) && init(mods[k1]).Some?
    requires 0 <= k2 < |mods| && NoFailureBefore(mods, init, k2) && init(mods[k2]).Some?
    ensures k1 == k2
  {
  }

  /** On a failed initialisation nothing but `onInitialize` calls happen, and the failing mod's is the last. */
  lemma FailureLoadsNoConfig(mods: seq<ModKind>, k: int, calls: seq<ModCall>)
    requires 0 <= k < |mods| && calls == EachMod(mods[..k + 1], Initialize)
    ensures forall c :: c in calls ==> c.Call? && c.callback == Initialize
    ensures ConfigOpened(ConfigFile) !in calls
    ensures calls[|calls| - 1] == Call(Initialize, mods[k])
  {
  }
}

/**
 * The integer logic of the `Speedrun` mod: the `HHh:MMm:SSs` rendering of a duration,
 * the microsecond-to-nanosecond conversion of the game clock fields, the panel sequence of
 * `drawStats` with its "you disabled everything" note, and the controller walk of
 * `drawEnemies`. ImGui calls, colours and the float health/rank read-outs are not modelled.
 */
module Speedrun {
  import opened Common
  import opened SpeedrunSettings

  const NanosPerSecond: int := 1_000_000_000
  const NanosPerMinute: int := 60_000_000_000
  const NanosPerHour: int := 3_600_000_000_000

  // ---------------------------------------------------------------------------------------
  // display(os, ns)
  // ---------------------------------------------------------------------------------------

  /**
   * `std::chrono::duration_cast` to a coarser unit: the count is divided and rounded toward
   * zero (C++ integer division), not floored as Dafny's `/` would for a negative count.
   */
  function CastDown(count: int, unit: int): (r: int)
    requires unit > 0
    ensures count >= 0 ==> 0 <= r * unit <= count < r * unit + unit
    ensures count < 0 ==> r * unit - unit < count <= r * unit <= 0
  {
    if count >= 0 then
      DivBounds(count, unit);
      count / unit
    else
      DivBounds(-count, unit);
      -((-count) / unit)
  }

  /** Euclidean division of a non-negative count: the quotient times the unit is at most a unit below it. */
  lemma DivBounds(a: int, u: int)
    requires a >= 0 && u > 0
    ensures 0 <= a / u
    ensures (a / u) * u <= a < (a / u) * u + u
  {
    var q, r := a / u, a % u;
    assert a == u * q + r;
    assert q * u == u * q;
  }

  /** The three numbers `display` prints. */
  datatype Hms = Hms(hours: int, minutes: int, seconds: int)

  /**
   * Reference definition of the printed fields: the whole seconds of the duration (rounded
   * toward zero) split into hours, minutes and seconds, the sub-second rest dropped.
   */
  function Fields(ns: int): Hms
  {
    var total := CastDown(ns, NanosPerSecond);
    var h := CastDown(total, 3600);
    var m := CastDown(total - h * 3600, 60);
    Hms(h, m, total - h * 3600 - m * 60)
  }

  /**
   * For a non-negative duration the fields are a mixed-radix decomposition of its whole
   * seconds; for a negative one every field is non-positive and the same identity holds
   * for the seconds rounded toward zero.
   */
  lemma FieldsDecompose(ns: int)
    ensures var f := Fields(ns);
      ns >= 0 ==>
        f.hours >= 0 && 0 <= f.minutes < 60 && 0 <= f.seconds < 60 &&
        f.hours * 3600 + f.minutes * 60 + f.seconds == ns / NanosPerSecond
    ensures var f := Fields(ns);
      ns < 0 ==>
        f.hours <= 0 && -60 < f.minutes <= 0 && -60 < f.seconds <= 0 &&
        f.hours * 3600 + f.minutes * 60 + f.seconds == -((-ns) / NanosPerSecond)
  {
  }

  /**
   * The arithmetic of `display`: cast to hours, subtract them from `ns`, cast the rest to
   * minutes, subtract those, and cast what is left to seconds.
   */
  method SplitDuration(ns: int) returns (h: int, m: int, s: int)
    ensures Hms(h, m, s) == Fields(ns)
  {
    var rest := ns;
    h := CastDown(rest, NanosPerHour);
    rest := rest - h * NanosPerHour;
    m := CastDown(rest, NanosPerMinute);
    rest := rest - m * NanosPerMinute;
    s := CastDown(rest, NanosPerSecond);
    CascadeMatchesFields(ns);
  }

  /** The cascade of casts and subtractions of `display` yields the reference fields. */
  lemma CascadeMatchesFields(ns: int)
    ensures var h := CastDown(ns, NanosPerHour);
      var m := CastDown(ns - h * NanosPerHour, NanosPerMinute);
      var s := CastDown(ns - h * NanosPerHour - m * NanosPerMinute, NanosPerSecond);
      Hms(h, m, s) == Fields(ns)
  {
    var total := CastDown(ns, NanosPerSecond);
    var h := CastDown(ns, NanosPerHour);
    assert h == CastDown(total, 3600);
    var m := CastDown(ns - h * NanosPerHour, NanosPerMinute);
    assert m == CastDown(total - h * 3600, 60);
    var s := CastDown(ns - h * NanosPerHour - m * NanosPerMinute, NanosPerSecond);
    assert s == total - h * 3600 - m * 60;
  }

  /** The character of a decimal digit. */
  function DigitChar(d: int): (c: char)
    requires 0 <= d < 10
    ensures '0' <= c <= '9' && c as int - '0' as int == d
  {
    ('0' as int + d) as char
  }

  /** The decimal digits `operator<<` writes for a non-negative count. */
  function DecimalDigits(n: nat): (d: string)
    ensures |d| >= 1
    ensures forall i :: 0 <= i < |d| ==> '0' <= d[i] <= '9'
    decreases n
  {
    if n < 10 then [DigitChar(n)] else DecimalDigits(n / 10) + [DigitChar(n % 10)]
  }

  /** `operator<<` of a `long long`: a minus sign, then the digits of the magnitude. */
  function Decimal(n: int): string
  {
    if n < 0 then "-" + DecimalDigits(-n) else DecimalDigits(n)
  }

  /**
   * `setw(width)` with the stream's fill character and the default right alignment: the
   * fill goes in front of a text shorter than the width; a longer text is kept whole.
   */
  function Padded(fill: char, width: nat, text: string): (r: string)
    ensures |r| == if |text| < width then width else |text|
    ensures r[|r| - |text|..] == text
    ensures forall i :: 0 <= i < |r| - |text| ==> r[i] == fill
  {
    if |text| < width then seq(width - |text|, _ => fill) + text else text
  }

  /** What `display` appends to the stream for the given fields. */
  function DisplayText(f: Hms): string
  {
    Padded('0', 2, Decimal(f.hours)) + "h:" +
    Padded('0', 2, Decimal(f.minutes)) + "m:" +
    Padded('0', 2, Decimal(f.seconds)) + "s"
  }

  /** The number a string of decimal digits denotes, read left to right. */
  function DecimalValue(d: string): int
    decreases |d|
  {
    if d == [] then 0 else DecimalValue(d[..|d| - 1]) * 10 + (d[|d| - 1] as int - '0' as int)
  }

  /** Printing a count in decimal and reading it back gives the count. */
  lemma {:induction false} DecimalRoundTrip(n: nat)
    ensures DecimalValue(DecimalDigits(n)) == n
    decreases n
  {
    var d := DecimalDigits(n);
    if n < 10 {
      assert d[..0] == [];
    } else {
      DecimalRoundTrip(n / 10);
      assert d[..|d| - 1] == DecimalDigits(n / 10);
    }
  }

  /** Leading zeros do not change the value of a digit string. */
  lemma {:induction false} LeadingZerosKeepValue(k: nat, d: string)
    ensures DecimalValue(seq(k, _ => '0') + d) == DecimalValue(d)
    decreases |d|
  {
    var z: string := seq(k, _ => '0');
    if d == [] {
      assert z + d == z;
      ZerosHaveValueZero(k);
    } else {
      assert (z + d)[..|z + d| - 1] == z + d[..|d| - 1];
      LeadingZerosKeepValue(k, d[..|d| - 1]);
    }
  }

  /** A run of zeros denotes zero. */
  lemma {:induction false} ZerosHaveValueZero(k: nat)
    ensures DecimalValue(seq(k, _ => '0')) == 0
    decreases k
  {
    if k > 0 {
      var z: string := seq(k, _ => '0');
      assert z[..k - 1] == seq(k - 1, _ => '0');
      ZerosHaveValueZero(k - 1);
    }
  }

  /** A non-negative field takes at least two characters, exactly two below 100. */
  lemma PaddedFieldLength(n: nat)
    ensures var t := Padded('0', 2, Decimal(n));
      |t| >= 2 && (n < 100 ==> |t| == 2) && (n >= 100 ==> t == DecimalDigits(n))
  {
    if n >= 10 {
      DecimalDigitsLength(n / 10);
    }
  }

  /** A non-negative field is printed as digits only. */
  lemma PaddedFieldIsDigits(n: nat)
    ensures var t := Padded('0', 2, Decimal(n));
      forall i :: 0 <= i < |t| ==> '0' <= t[i] <= '9'
  {
  }

  /** The digits of a non-negative field read back as the field. */
  lemma PaddedFieldReadsBack(n: nat)
    ensures DecimalValue(Padded('0', 2, Decimal(n))) == n
  {
    var d := DecimalDigits(n);
    DecimalRoundTrip(n);
    if |d| < 2 {
      LeadingZerosKeepValue(2 - |d|, d);
    }
  }

  /** Below 100 a count has at most two digits; from 10 on it has at least two. */
  lemma DecimalDigitsLength(n: nat)
    ensures n < 10 ==> |DecimalDigits(n)| == 1
    ensures 10 <= n < 100 ==> |DecimalDigits(n)| == 2
    ensures n >= 10 ==> |DecimalDigits(n)| >= 2
  {
  }

  /**
   * `t` reads as `<h>h:<m>m:<s>s` with the hours in its first `a` characters and minutes
   * and seconds in two characters each, every field reading back as the one of `f`.
   */
  ghost predicate ShowsFields(t: string, a: nat, f: Hms)
  {
    |t| == a + 9 &&
    DecimalValue(t[..a]) == f.hours &&
    t[a..a + 2] == "h:" &&
    DecimalValue(t[a + 2..a + 4]) == f.minutes &&
    t[a + 4..a + 6] == "m:" &&
    DecimalValue(t[a + 6..a + 8]) == f.seconds &&
    t[a + 8..] == "s"
  }

  /**
   * For a non-negative duration the text is `<h>h:<m>m:<s>s`: minutes and seconds in
   * exactly two digits, hours in at least two, and each field reads back as the fields of
   * the reference decomposition.
   */
  lemma DisplayLayout(ns: int)
    requires ns >= 0
    ensures var f := Fields(ns);
      var a := |Padded('0', 2, Decimal(f.hours))|;
      a >= 2 && ShowsFields(DisplayText(f), a, f)
  {
    FieldsDecompose(ns);
    LayoutOf(Fields(ns));
  }

  /** The layout of `DisplayText` for non-negative fields with minutes and seconds below 60. */
  lemma LayoutOf(f: Hms)
    requires f.hours >= 0 && 0 <= f.minutes < 60 && 0 <= f.seconds < 60
    ensures var a := |Padded('0', 2, Decimal(f.hours))|;
      a >= 2 && ShowsFields(DisplayText(f), a, f)
  {
    var hh, mm, ss := Padded('0', 2, Decimal(f.hours)), Padded('0', 2, Decimal(f.minutes)),
      Padded('0', 2, Decimal(f.seconds));
    PaddedFieldLength(f.hours);
    PaddedFieldLength(f.minutes);
    PaddedFieldLength(f.seconds);
    PaddedFieldReadsBack(f.hours);
    PaddedFieldReadsBack(f.minutes);
    PaddedFieldReadsBack(f.seconds);
    TextSlices(DisplayText(f), hh, mm, ss, f);
  }

  /** Where the three fields and the separators sit in the text of `display`. */
  lemma TextSlices(t: string, hh: string, mm: string, ss: string, f: Hms)
    requires |mm| == 2 && |ss| == 2
    requires t == hh + "h:" + mm + "m:" + ss + "s"
    requires DecimalValue(hh) == f.hours && DecimalValue(mm) == f.minutes && DecimalValue(ss) == f.seconds
    ensures ShowsFields(t, |hh|, f)
  {
    Slices(t, hh, mm, ss);
  }

  /** The slices of the text of `display` at the field positions are the fields. */
  lemma Slices(t: string, hh: string, mm: string, ss: string)
    requires |mm| == 2 && |ss| == 2
    requires t == hh + "h:" + mm + "m:" + ss + "s"
    ensures |t| == |hh| + 9 && t[..|hh|] == hh && t[|hh|..|hh| + 2] == "h:"
    ensures t[|hh| + 2..|hh| + 4] == mm && t[|hh| + 4..|hh| + 6] == "m:"
    ensures t[|hh| + 6..|hh| + 8] == ss && t[|hh| + 8..] == "s"
  {
  }

  /** The part of `std::stringstream` that `display` uses: the text and the fill character. */
  class StringStream {
    var text: string
    var fill: char

    /** A fresh stream: empty, filling with spaces. */
    constructor ()
      ensures text == [] && fill == ' '
    {
      text := [];
      fill := ' ';
    }
  }

  /**
   * `display(os, ns)`: appends the padded fields with the fill set to '0', and gives the
   * stream its former fill character back.
   */
  method Display(os: StringStream, ns: int)
    modifies os
    ensures os.fill == old(os.fill)
    ensures os.text == old(os.text) + DisplayText(Fields(ns))
  {
    var saved := os.fill;
    os.fill := '0';
    var h, m, s := SplitDuration(ns);
    var hh, mm, ss := Padded(os.fill, 2, Decimal(h)), Padded(os.fill, 2, Decimal(m)),
      Padded(os.fill, 2, Decimal(s));
    os.text := os.text + (hh + "h:" + mm + "m:" + ss + "s");
    os.fill := saved;
  }

  // ---------------------------------------------------------------------------------------
  // get_nanos(bh, key)
  // ---------------------------------------------------------------------------------------

  /**
   * `std::chrono::microseconds(t)` of a `uint64_t` field: its signed 64-bit count, the
   * value modulo 2^64 read in two's complement.
   */
  function SignedCount(t: U64): (c: int)
    ensures -0x8000_0000_0000_0000 <= c < 0x8000_0000_0000_0000
    ensures (c - t) % 0x1_0000_0000_0000_0000 == 0
  {
    if t < 0x8000_0000_0000_0000 then t else t - 0x1_0000_0000_0000_0000
  }

  /** The conversion to nanoseconds multiplies in 64-bit signed arithmetic, which must not overflow. */
  predicate NanosFit(t: U64)
  {
    -0x8000_0000_0000_0000 <= SignedCount(t) * 1000 < 0x8000_0000_0000_0000
  }

  /**
   * `get_nanos`: the clock field holds microseconds; the result is the same duration in
   * nanoseconds, that is, exactly 1000 times as many.
   */
  function GetNanos(t: U64): (ns: int)
    requires NanosFit(t)
    ensures ns % 1000 == 0 && ns / 1000 == SignedCount(t)
    ensures t < 0x8000_0000_0000_0000 ==> ns == t * 1000
    ensures -0x8000_0000_0000_0000 <= ns < 0x8000_0000_0000_0000
  {
    SignedCount(t) * 1000
  }

  /** A clock field displays as its whole seconds, which are its microseconds divided by 10^6. */
  lemma DisplayedSecondsOfClockField(t: U64)
    requires t * 1000 < 0x8000_0000_0000_0000
    ensures NanosFit(t)
    ensures var f := Fields(GetNanos(t));
      f.hours * 3600 + f.minutes * 60 + f.seconds == t / 1_000_000
  {
    FieldsDecompose(GetNanos(t));
  }

  /**
   * `drawIngameTime`: the game time and the inventory time of the clock, each rendered by
   * `display` into a fresh stream.
   */
  method DrawIngameTime(actualRecordTime: U64, inventorySpendingTime: U64)
    returns (gameTime: string, inventoryTime: string)
    requires NanosFit(actualRecordTime) && NanosFit(inventorySpendingTime)
    ensures gameTime == DisplayText(Fields(GetNanos(actualRecordTime)))
    ensures inventoryTime == DisplayText(Fields(GetNanos(inventorySpendingTime)))
  {
    var os := new StringStream();
    Display(os, GetNanos(actualRecordTime));
    gameTime := os.text;
    os := new StringStream();
    Display(os, GetNanos(inventorySpendingTime));
    inventoryTime := os.text;
  }

  // ---------------------------------------------------------------------------------------
  // onFrame and drawStats
  // ---------------------------------------------------------------------------------------

  /** The panels `drawStats` can draw below the system time, in the order it draws them. */
  datatype Panel = InGameTime | Health | Rank | Enemies

  /** What `drawStats` puts in the overlay window, in order. */
  datatype StatsItem =
    | SystemTime
    | Separator
    | PanelItem(panel: Panel)
    | DisabledEverythingNote

  /** The panels whose toggles are on, in the fixed drawing order. */
  function Panels(t: Toggles): seq<Panel>
  {
    (if t.ingame then [InGameTime] else []) +
    (if t.health then [Health] else []) +
    (if t.gameRank then [Rank] else []) +
    (if t.localEnemies then [Enemies] else [])
  }

  /** The condition of `drawStats` for the "You disabled everything" line. */
  predicate ShowsDisabledNote(t: Toggles)
  {
    t.enabled && !t.ingame && !t.health && !t.gameRank && !t.localEnemies
  }

  /** `drawStats`: the system time, a separator, the selected panels and maybe the note. */
  function DrawStats(t: Toggles): seq<StatsItem>
  {
    [SystemTime, Separator] + seq(|Panels(t)|, i requires 0 <= i < |Panels(t)| => PanelItem(Panels(t)[i])) +
    (if ShowsDisabledNote(t) then [DisabledEverythingNote] else [])
  }

  /** `Speedrun::onFrame`: the stats window is drawn only while the overlay is enabled. */
  function OnFrame(t: Toggles): (items: seq<StatsItem>)
    ensures items != [] <==> t.enabled
  {
    if t.enabled then DrawStats(t) else []
  }

  /**
   * The note is shown exactly when the overlay is enabled and no panel is selected; so on
   * every frame that draws it, it is the only thing below the system time.
   */
  lemma DisabledNoteIffNothingSelected(t: Toggles)
    ensures ShowsDisabledNote(t) <==> t.enabled && Panels(t) == []
    ensures DisabledEverythingNote in OnFrame(t) <==> t.enabled && Panels(t) == []
    ensures DisabledEverythingNote in OnFrame(t) ==> OnFrame(t) == [SystemTime, Separator, DisabledEverythingNote]
  {
    if t.enabled {
      var items := DrawStats(t);
      if !ShowsDisabledNote(t) {
        assert forall i :: 0 <= i < |items| ==> items[i] != DisabledEverythingNote;
      }
    }
  }

  /** With the default toggles nothing is drawn, and once enabled all four panels are. */
  lemma DefaultFrames()
    ensures OnFrame(DefaultToggles) == []
    ensures Panels(DefaultToggles.(enabled := true)) == [InGameTime, Health, Rank, Enemies]
  {
  }
}

module SpeedrunEnemies {
  import opened Common
  import opened SpeedrunSettings

  /**
   * The game memory that `drawEnemies` reads through accessors that are not part of this
   * model: each object's `childComponent` pointer, `isManagedObject`, and whether an object
   * `isA` "app.ropeway.HitPointController".
   */
  datatype GameMemory = GameMemory(
    child: Ptr -> Ptr,
    isManaged: Ptr -> bool,
    isHitPointController: Ptr -> bool)

  /** The `k`-th object of the child chain of `ec`: `ec`, its child, its child's child, ... */
  function Nth(mem: GameMemory, ec: Ptr, k: nat): Ptr
    decreases k
  {
    if k == 0 then ec else mem.child(Nth(mem, ec, k - 1))
  }

  /** The child walk of `ec` ends at position `k`: null, or back at the controller. */
  predicate StopsAt(mem: GameMemory, ec: Ptr, k: nat)
  {
    Nth(mem, ec, k) == Null || Nth(mem, ec, k) == ec
  }

  /** The child walk of `ec` leaves the loop at position `k`: a stop, or a hit-point controller. */
  predicate EndsAt(mem: GameMemory, ec: Ptr, k: nat)
  {
    StopsAt(mem, ec, k) || mem.isHitPointController(Nth(mem, ec, k))
  }

  /** The walk leaves the loop at position `n` (the walk starts at position 1). */
  predicate ChainEnds(mem: GameMemory, ec: Ptr, n: nat)
  {
    1 <= n && EndsAt(mem, ec, n)
  }

  /**
   * The child walk of `ec` leaves the loop. The source loops forever only on a chain that
   * meets neither null, nor `ec`, nor a hit-point controller.
   */
  ghost predicate Terminates(mem: GameMemory, ec: Ptr)
  {
    exists n: nat :: ChainEnds(mem, ec, n)
  }

  /**
   * Reference definition of the inner loop, from position `k` of the chain: null if the
   * walk stops first, else the first hit-point controller met; `n` is a position where
   * the walk leaves the loop.
   */
  function Search(mem: GameMemory, ec: Ptr, k: nat, n: nat): Ptr
    requires 1 <= k <= n && EndsAt(mem, ec, n)
    decreases n - k
  {
    var c := Nth(mem, ec, k);
    if c == Null || c == ec then Null
    else if mem.isHitPointController(c) then c
    else Search(mem, ec, k + 1, n)
  }

  /** The search does not depend on which exit position bounds it. */
  lemma {:induction false} SearchIndependent(mem: GameMemory, ec: Ptr, k: nat, n1: nat, n2: nat)
    requires 1 <= k <= n1 && EndsAt(mem, ec, n1)
    requires k <= n2 && EndsAt(mem, ec, n2)
    ensures Search(mem, ec, k, n1) == Search(mem, ec, k, n2)
    decreases n1 - k
  {
    var c := Nth(mem, ec, k);
    if c != Null && c != ec && !mem.isHitPointController(c) {
      SearchIndependent(mem, ec, k + 1, n1, n2);
    }
  }

  /** The hit-point controller `drawEnemies` finds for the controller `ec` (null: none). */
  ghost function FirstHitPoint(mem: GameMemory, ec: Ptr): Ptr
    requires Terminates(mem, ec)
  {
    var n: nat :| ChainEnds(mem, ec, n);
    Search(mem, ec, 1, n)
  }

  /** Any exit position gives `FirstHitPoint`. */
  lemma FirstHitPointIsSearch(mem: GameMemory, ec: Ptr, n: nat)
    requires ChainEnds(mem, ec, n)
    ensures Terminates(mem, ec)
    ensures FirstHitPoint(mem, ec) == Search(mem, ec, 1, n)
  {
    var m: nat :| ChainEnds(mem, ec, m) && FirstHitPoint(mem, ec) == Search(mem, ec, 1, m);
    SearchIndependent(mem, ec, 1, m, n);
  }

  /**
   * What the search finds. `j` is the position where the walk ends: every object before it
   * is neither a stop nor a hit-point controller; the result is null exactly when position
   * `j` is a stop, and otherwise it is the hit-point controller at `j`.
   */
  lemma {:induction false} SearchFindsFirst(mem: GameMemory, ec: Ptr, k: nat, n: nat) returns (j: nat)
    requires 1 <= k <= n && EndsAt(mem, ec, n)
    ensures k <= j <= n
    ensures forall i :: k <= i < j ==> !StopsAt(mem, ec, i) && !mem.isHitPointController(Nth(mem, ec, i))
    ensures Search(mem, ec, k, n) == Null <==> StopsAt(mem, ec, j)
    ensures Search(mem, ec, k, n) != Null ==>
      Search(mem, ec, k, n) == Nth(mem, ec, j) && mem.isHitPointController(Nth(mem, ec, j))
    decreases n - k
  {
    var c := Nth(mem, ec, k);
    if c == Null || c == ec || mem.isHitPointController(c) {
      j := k;
    } else {
      j := SearchFindsFirst(mem, ec, k + 1, n);
    }
  }

  /**
   * The inner `for` of `drawEnemies`: from `ec->childComponent` along the chain until null
   * or `ec` again, breaking at the first hit-point controller.
   */
  method FindHitPointController(mem: GameMemory, ec: Ptr) returns (hp: Ptr)
    requires Terminates(mem, ec)
    ensures hp == FirstHitPoint(mem, ec)
    ensures hp != Null ==> mem.isHitPointController(hp)
  {
    ghost var n: nat :| ChainEnds(mem, ec, n);
    FirstHitPointIsSearch(mem, ec, n);
    hp := Null;
    var c := mem.child(ec);
    ghost var k: nat := 1;
    while c != Null && c != ec
      invariant 1 <= k <= n && c == Nth(mem, ec, k)
      invariant Search(mem, ec, 1, n) == Search(mem, ec, k, n)
      invariant hp == Null
      decreases n - k
    {
      if mem.isHitPointController(c) {
        hp := c;
        break;
      }
      c := mem.child(c);
      k := k + 1;
    }
  }

  /**
   * A hit-point controller ahead of a cycle that avoids `ec`: for the chain 1 -> 2 -> 3 -> 3 -> ...
   * with 2 a hit-point controller, the walk breaks at 2 and finds it.
   */
  lemma HitPointBeforeForeignCycle(mem: GameMemory)
    requires mem.child(1) == 2 && mem.child(2) == 3 && mem.child(3) == 3
    requires mem.isHitPointController(2)
    ensures Terminates(mem, 1)
    ensures FirstHitPoint(mem, 1) == 2
  {
    assert Nth(mem, 1, 1) == 2;
    FirstHitPointIsSearch(mem, 1, 1);
  }

  /** One cell of the enemy table: the controller's index, its hit-point controller, and
   * whether `SameLine` is issued before moving to the next column. */
  datatype Row = Row(index: int, hitPoint: Ptr, sameLine: bool)

  /** What `drawEnemies` draws: nothing, or the five-column table with its cells. */
  datatype EnemyTable = NoTable | Table(columns: nat, rows: seq<Row>)

  /**
   * Every controller the outer loop reaches from index `i` (not null, after no null, and
   * managed) has a child walk that leaves the inner loop.
   */
  ghost predicate ReachedChainsEnd(mem: GameMemory, arr: seq<Ptr>, i: nat)
  {
    forall j :: i <= j < |arr| && Null !in arr[i..j] && arr[j] != Null && mem.isManaged(arr[j]) ==>
      Terminates(mem, arr[j])
  }

  lemma ReachedChainsEndStep(mem: GameMemory, arr: seq<Ptr>, i: nat)
    requires i < |arr| && arr[i] != Null && ReachedChainsEnd(mem, arr, i)
    ensures ReachedChainsEnd(mem, arr, i + 1)
  {
    forall j | i + 1 <= j < |arr| && Null !in arr[i + 1..j] && arr[j] != Null && mem.isManaged(arr[j])
      ensures Terminates(mem, arr[j])
    {
      assert arr[i..j] == [arr[i]] + arr[i + 1..j];
    }
  }

  /** Reference definition of the outer loop from index `i`: the cells it draws. */
  ghost function RowsFrom(mem: GameMemory, arr: seq<Ptr>, i: nat): seq<Row>
    requires ReachedChainsEnd(mem, arr, i)
    decreases |arr| - i
  {
    if i >= |arr| || arr[i] == Null then []
    else
      ReachedChainsEndStep(mem, arr, i);
      if !mem.isManaged(arr[i]) then RowsFrom(mem, arr, i + 1)
      else
        assert arr[i..i] == [];
        var hp := FirstHitPoint(mem, arr[i]);
        if hp == Null then RowsFrom(mem, arr, i + 1)
        else [Row(i, hp, i % Columns != 0)] + RowsFrom(mem, arr, i + 1)
  }

  /** The controller at index `j` is reached from `i`: no null before it, and it is not null. */
  predicate Reached(arr: seq<Ptr>, i: nat, j: int)
  {
    i <= j < |arr| && Null !in arr[i..j] && arr[j] != Null
  }

  /**
   * A cell drawn from index `i` on: for a reached, managed controller whose walk ends,
   * holding its hit-point controller, with `SameLine` exactly off the first column.
   */
  ghost predicate SoundRow(mem: GameMemory, arr: seq<Ptr>, i: nat, r: Row)
  {
    Reached(arr, i, r.index) && mem.isManaged(arr[r.index]) &&
    Terminates(mem, arr[r.index]) &&
    r.hitPoint == FirstHitPoint(mem, arr[r.index]) && r.hitPoint != Null &&
    (r.sameLine <==> r.index % Columns != 0)
  }

  /** Every cell is sound. */
  lemma {:induction false} RowsSound(mem: GameMemory, arr: seq<Ptr>, i: nat)
    requires ReachedChainsEnd(mem, arr, i)
    ensures forall r :: r in RowsFrom(mem, arr, i) ==> SoundRow(mem, arr, i, r)
    decreases |arr| - i
  {
    if i < |arr| && arr[i] != Null {
      ReachedChainsEndStep(mem, arr, i);
      RowsSound(mem, arr, i + 1);
      forall r | r in RowsFrom(mem, arr, i + 1)
        ensures SoundRow(mem, arr, i, r)
      {
        assert arr[i..r.index] == [arr[i]] + arr[i + 1..r.index];
      }
      assert arr[i..i] == [];
    }
  }

  /** The cells' indices strictly increase. */
  predicate IncreasingIndices(rows: seq<Row>)
  {
    forall a, b :: 0 <= a < b < |rows| ==> rows[a].index < rows[b].index
  }

  /** Cells come in increasing order of index, one per controller at most. */
  lemma {:induction false} RowsIncreasing(mem: GameMemory, arr: seq<Ptr>, i: nat)
    requires ReachedChainsEnd(mem, arr, i)
    ensures IncreasingIndices(RowsFrom(mem, arr, i))
    decreases |arr| - i
  {
    if i < |arr| && arr[i] != Null {
      ReachedChainsEndStep(mem, arr, i);
      RowsIncreasing(mem, arr, i + 1);
      RowsSound(mem, arr, i + 1);
      var rest := RowsFrom(mem, arr, i + 1);
      forall k | 0 <= k < |rest|
        ensures rest[k].index > i
      {
        assert rest[k] in rest;
        assert SoundRow(mem, arr, i + 1, rest[k]);
      }
      assert arr[i..i] == [];
      var rows := RowsFrom(mem, arr, i);
      assert rows == rest || (rows == [rows[0]] + rest && rows[0].index == i);
      if rows != rest {
        forall a, b | 0 <= a < b < |rows|
          ensures rows[a].index < rows[b].index
        {
          assert rows[b] == rest[b - 1];
          if a > 0 {
            assert rows[a] == rest[a - 1];
          }
        }
      }
    }
  }

  /** Every reached, managed controller with a hit-point controller gets a cell. */
  lemma {:induction false} RowsComplete(mem: GameMemory, arr: seq<Ptr>, i: nat, j: nat)
    requires ReachedChainsEnd(mem, arr, i)
    requires Reached(arr, i, j) && mem.isManaged(arr[j])
    requires Terminates(mem, arr[j]) && FirstHitPoint(mem, arr[j]) != Null
    ensures exists k :: 0 <= k < |RowsFrom(mem, arr, i)| && RowsFrom(mem, arr, i)[k].index == j
    decreases |arr| - i
  {
    ReachedChainsEndStep(mem, arr, i);
    var rows := RowsFrom(mem, arr, i);
    if j == i {
      assert arr[i..i] == [];
      assert rows[0].index == j;
    } else {
      assert arr[i] in arr[i..j];
      assert arr[i + 1..j] <= arr[i..j][1..];
      assert Null !in arr[i + 1..j] by {
        assert arr[i..j] == [arr[i]] + arr[i + 1..j];
      }
      RowsComplete(mem, arr, i + 1, j);
      var rest := RowsFrom(mem, arr, i + 1);
      var k :| 0 <= k < |rest| && rest[k].index == j;
      if |rows| == |rest| + 1 {
        assert rows[k + 1] == rest[k];
      } else {
        assert rows[k] == rest[k];
      }
    }
  }

  /** No cell is drawn at or after the first null controller. */
  lemma StopsAtFirstNull(mem: GameMemory, arr: seq<Ptr>, z: nat)
    requires ReachedChainsEnd(mem, arr, 0)
    requires z < |arr| && arr[z] == Null
    ensures forall k :: 0 <= k < |RowsFrom(mem, arr, 0)| ==> RowsFrom(mem, arr, 0)[k].index < z
  {
    RowsSound(mem, arr, 0);
    var rows := RowsFrom(mem, arr, 0);
    forall k | 0 <= k < |rows|
      ensures rows[k].index < z
    {
      assert rows[k] in rows;
    }
  }

  /**
   * `drawEnemies(enemy_manager)`: `None` stands for any of the three null pointers it checks
   * (the manager, its controller list, the list's data); `Some(arr)` holds the elements
   * `getElement` returns for the indices below `numElements`.
   */
  method DrawEnemies(mem: GameMemory, controllers: Option<seq<Ptr>>) returns (table: EnemyTable)
    requires controllers.Some? ==> ReachedChainsEnd(mem, controllers.value, 0)
    ensures controllers.None? ==> table == NoTable
    ensures controllers.Some? ==> table == Table(Columns, RowsFrom(mem, controllers.value, 0))
  {
    if controllers.None? {
      return NoTable;
    }
    var arr := controllers.value;
    var rows: seq<Row> := [];
    var i := 0;
    while i < |arr|
      invariant 0 <= i <= |arr|
      invariant ReachedChainsEnd(mem, arr, i)
      invariant RowsFrom(mem, arr, 0) == rows + RowsFrom(mem, arr, i)
      decreases |arr| - i
    {
      var ec := arr[i];
      if ec == Null {
        break;
      }
      ReachedChainsEndStep(mem, arr, i);
      if mem.isManaged(ec) {
        assert arr[i..i] == [];
        var hp := FindHitPointController(mem, ec);
        if hp != Null {
          rows := rows + [Row(i, hp, i % Columns != 0)];
        }
      }
      i := i + 1;
    }
    table := Table(Columns, rows);
  }
}

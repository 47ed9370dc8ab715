/**
 * The I/O APIC driver: 64-bit redirection entries kept in pairs of 32-bit
 * registers, reached one at a time through a select register and a window
 * (Intel 82093AA datasheet, sections 3.1 and 3.2.4), and the manager that
 * finds the chip for a global system interrupt.
 *
 * Registers are plain storage.  u8 and u32 arithmetic wraps, as it does in a
 * build without overflow checks.
 */
module IoApics {
  import opened Common

  const REG_REDTBL_BASE := 0x10

  /** The raw value of a masked, otherwise empty entry: bit 16 alone. */
  const MASKED: bv64 := 0x1_0000

  const DELMODE_FIXED: bv64 := 0
  const DESTMODE_PHYSICAL: bv64 := 0
  const POLARITY_HIGH: bv64 := 0
  const TRIGGER_EDGE: bv64 := 0

  type U8 = x: nat | x <= 0xFF

  // -------------------------------------------------------------------------
  // Redirection entries
  // -------------------------------------------------------------------------

  datatype RedirectionEntry = RedirectionEntry(raw: bv64) {
    function Vector(): bv8 {
      (raw & 0xFF) as bv8
    }

    function Destination(): bv8 {
      ((raw >> 56) & 0xFF) as bv8
    }

    predicate IsMasked() {
      raw & 0x1_0000 != 0
    }

    /** The bits between vector and destination, other than the mask bit. */
    function Control(): bv64 {
      raw & 0x00FF_FFFF_FFFE_FF00
    }
  }

  function NewRaw(vector: bv8, deliveryMode: bv64, destMode: bv64, polarity: bv64, triggerMode: bv64,
                  masked: bool, destination: bv8): bv64
  {
    var raw := (vector as bv64) | deliveryMode | destMode | polarity | triggerMode | ((destination as bv64) << 56);
    if masked then raw | 0x1_0000 else raw
  }

  function Simple(vector: bv8, destination: bv8): RedirectionEntry {
    RedirectionEntry(NewRaw(vector, DELMODE_FIXED, DESTMODE_PHYSICAL, POLARITY_HIGH, TRIGGER_EDGE, false, destination))
  }

  function SetMasked(e: RedirectionEntry, mask: bool): RedirectionEntry {
    RedirectionEntry(if mask then e.raw | 0x1_0000 else e.raw & 0xFFFF_FFFF_FFFE_FFFF)
  }

  /** Mode bits clear of vector and destination, bit 16 or not, disturb neither; */
  lemma NewReadsBack(vector: bv8, deliveryMode: bv64, destMode: bv64, polarity: bv64, triggerMode: bv64,
                     masked: bool, destination: bv8)
    requires (deliveryMode | destMode | polarity | triggerMode) & 0xFF00_0000_0000_00FF == 0
    ensures var e := RedirectionEntry(
                       NewRaw(vector, deliveryMode, destMode, polarity, triggerMode, masked, destination));
      e.Vector() == vector && e.Destination() == destination
  {
  }

  /** clear of bit 16 as well, they leave the mask alone and read back themselves. */
  lemma NewReadsBackModes(vector: bv8, deliveryMode: bv64, destMode: bv64, polarity: bv64, triggerMode: bv64,
                          masked: bool, destination: bv8)
    requires (deliveryMode | destMode | polarity | triggerMode) & 0xFF00_0000_0001_00FF == 0
    ensures var e := RedirectionEntry(
                       NewRaw(vector, deliveryMode, destMode, polarity, triggerMode, masked, destination));
      e.IsMasked() == masked && e.Control() == deliveryMode | destMode | polarity | triggerMode
  {
  }

  /** An entry in force: unmasked, delivering the vector to the destination, with all modes at their defaults. */
  predicate Delivers(raw: bv64, vector: bv8, destination: bv8) {
    var e := RedirectionEntry(raw);
    e.Vector() == vector && e.Destination() == destination && !e.IsMasked() && e.Control() == 0
  }

  lemma SimpleDelivers(vector: bv8, destination: bv8)
    ensures Delivers(Simple(vector, destination).raw, vector, destination)
  {
    NewReadsBack(vector, 0, 0, 0, 0, false, destination);
    NewReadsBackModes(vector, 0, 0, 0, 0, false, destination);
  }

  /** An entry switched off: masked, and otherwise empty. */
  predicate Silent(raw: bv64) {
    var e := RedirectionEntry(raw);
    e.IsMasked() && e.Vector() == 0 && e.Destination() == 0 && e.Control() == 0
  }

  lemma MaskedIsSilent()
    ensures Silent(MASKED)
  {
  }

  lemma MaskBitIsSet(e: RedirectionEntry, mask: bool)
    ensures SetMasked(e, mask).IsMasked() == mask
  {
  }

  lemma MaskingMasked(e: RedirectionEntry)
    requires e.IsMasked()
    ensures SetMasked(e, true).raw == e.raw
  {
  }

  lemma UnmaskingMasked(e: RedirectionEntry)
    requires e.IsMasked()
    ensures SetMasked(e, false).raw == e.raw ^ 0x1_0000
  {
  }

  lemma MaskingUnmasked(e: RedirectionEntry)
    requires !e.IsMasked()
    ensures SetMasked(e, true).raw == e.raw ^ 0x1_0000
  {
  }

  lemma UnmaskingUnmasked(e: RedirectionEntry)
    requires !e.IsMasked()
    ensures SetMasked(e, false).raw == e.raw
  {
  }

  /** At most the mask bit changes. */
  lemma OnlyTheMaskBitFlips(e: RedirectionEntry, mask: bool)
    ensures SetMasked(e, mask).raw == if e.IsMasked() == mask then e.raw else e.raw ^ 0x1_0000
  {
    if e.IsMasked() {
      if mask { MaskingMasked(e); } else { UnmaskingMasked(e); }
    } else {
      if mask { MaskingUnmasked(e); } else { UnmaskingUnmasked(e); }
    }
  }

  /** Unmasking undoes masking, and the other way round. */
  lemma MaskingIsUndone(e: RedirectionEntry, mask: bool)
    requires e.IsMasked() != mask
    ensures SetMasked(SetMasked(e, mask), !mask) == e
  {
  }

  // -------------------------------------------------------------------------
  // Register pairs
  // -------------------------------------------------------------------------

  function Low(raw: bv64): bv32 {
    (raw & 0xFFFF_FFFF) as bv32
  }

  function High(raw: bv64): bv32 {
    (raw >> 32) as bv32
  }

  function Join(low: bv32, high: bv32): bv64 {
    (low as bv64) | ((high as bv64) << 32)
  }

  /** The first half holds bits 0 to 31, with vector and mask; the second bits 32 to 63, with the destination. */
  lemma HalvesAreInPlace(raw: bv64)
    ensures Low(raw) as bv64 == raw & 0xFFFF_FFFF
    ensures (High(raw) as bv64) << 32 == raw & 0xFFFF_FFFF_0000_0000
  {
  }

  lemma JoinInvertsSplit(raw: bv64)
    ensures Join(Low(raw), High(raw)) == raw
  {
  }

  /** The register holding the low half of entry irq: `REG_REDTBL_BASE + irq * 2` on u8. */
  function LowReg(irq: U8): U8 {
    (REG_REDTBL_BASE + (irq * 2) % 0x100) % 0x100
  }

  function HighReg(irq: U8): U8 {
    (LowReg(irq) + 1) % 0x100
  }

  /** The entries below max share no register with one another. */
  predicate PairsAreDistinct(max: nat) {
    forall i: U8, j: U8 :: i < max && j < max && i != j ==>
      LowReg(i) != LowReg(j) && LowReg(i) != HighReg(j) && HighReg(i) != HighReg(j)
  }

  /** They also keep clear of the chip's identification registers. */
  predicate TableIsSound(max: nat) {
    && (forall i: U8 :: i < max ==> LowReg(i) >= REG_REDTBL_BASE && HighReg(i) >= REG_REDTBL_BASE)
    && PairsAreDistinct(max)
  }

  /** Low halves are in even registers, high halves in the odd ones after them; every 128 entries the pairs recur. */
  lemma PairOf(irq: U8)
    ensures LowReg(irq) == 2 * (irq % 128) + if irq % 128 < 120 then REG_REDTBL_BASE else REG_REDTBL_BASE - 0x100
    ensures HighReg(irq) == LowReg(irq) + 1
  {
    assert (irq * 2) % 0x100 == 2 * (irq % 128);
  }

  lemma SamePairIff128Apart(i: U8, j: U8)
    ensures LowReg(i) == LowReg(j) <==> i % 128 == j % 128
    ensures HighReg(i) == HighReg(j) <==> i % 128 == j % 128
    ensures LowReg(i) != HighReg(j)
  {
    PairOf(i);
    PairOf(j);
  }

  lemma OwnPairBelow128(i: U8, j: U8)
    requires i < 128 && j < 128 && i != j
    ensures LowReg(i) != LowReg(j) && LowReg(i) != HighReg(j) && HighReg(i) != HighReg(j)
  {
    SamePairIff128Apart(i, j);
    assert i % 128 == i && j % 128 == j;
  }

  /** Pairs are distinct for exactly 128 entries: entry 128 would use the pair of entry 0. */
  lemma PairsAreDistinctIffAtMost128(max: nat)
    ensures PairsAreDistinct(max) <==> max <= 128
  {
    if max > 128 {
      SamePairIff128Apart(0, 128);
    } else {
      forall i: U8, j: U8 | i < max && j < max && i != j
        ensures LowReg(i) != LowReg(j) && LowReg(i) != HighReg(j) && HighReg(i) != HighReg(j)
      {
        OwnPairBelow128(i, j);
      }
    }
  }

  /** The u8 index arithmetic is good for exactly 120 entries: entry 120 would land on the identification register. */
  lemma TableIsSoundIffAtMost120(max: nat)
    ensures TableIsSound(max) <==> max <= 120
  {
    if max > 120 {
      assert LowReg(120) == 0;
    } else {
      PairsAreDistinctIffAtMost128(max);
      forall i: U8 | i < max
        ensures LowReg(i) >= REG_REDTBL_BASE && HighReg(i) >= REG_REDTBL_BASE
      {
        PairOf(i);
      }
    }
  }

  /** Register k holds half of an entry below max. */
  predicate InTable(k: int, max: nat) {
    exists irq: U8 :: irq < max && (LowReg(irq) == k || HighReg(irq) == k)
  }

  lemma TableIsARange(k: int, max: nat)
    requires max <= 120
    ensures InTable(k, max) <==> REG_REDTBL_BASE <= k < REG_REDTBL_BASE + 2 * max
  {
    forall irq: U8 | irq < max
      ensures LowReg(irq) == REG_REDTBL_BASE + 2 * irq && HighReg(irq) == LowReg(irq) + 1
    {
      PairOf(irq);
    }
    if REG_REDTBL_BASE <= k < REG_REDTBL_BASE + 2 * max {
      var irq: U8 := (k - REG_REDTBL_BASE) / 2;
      assert LowReg(irq) == k || HighReg(irq) == k;
    }
  }

  // -------------------------------------------------------------------------
  // Tables as values
  // -------------------------------------------------------------------------

  /** A chip's registers after the two halves of an entry are written. */
  function Put(registers: seq<bv32>, irq: U8, raw: bv64): (registers': seq<bv32>)
    requires |registers| == 0x100
    ensures |registers'| == 0x100
  {
    registers[LowReg(irq) := Low(raw)][HighReg(irq) := High(raw)]
  }

  /** The first max entries, read from their registers. */
  function TableOf(registers: seq<bv32>, max: U8): (t: seq<bv64>)
    requires |registers| == 0x100
    ensures |t| == max
  {
    seq(max, i requires 0 <= i < max => Join(registers[LowReg(i)], registers[HighReg(i)]))
  }

  /** The entry and those 128 away from it become raw. */
  function Written(t: seq<bv64>, irq: nat, raw: bv64): (t': seq<bv64>)
    ensures |t'| == |t|
  {
    seq(|t|, j requires 0 <= j < |t| => if j % 128 == irq % 128 then raw else t[j])
  }

  /** Writing a pair of registers writes exactly the entries kept there. */
  lemma PutWrites(registers: seq<bv32>, max: U8, irq: U8, raw: bv64)
    requires |registers| == 0x100
    ensures TableOf(Put(registers, irq, raw), max) == Written(TableOf(registers, max), irq, raw)
  {
    JoinInvertsSplit(raw);
    forall j: U8
      ensures j % 128 == irq % 128 <==> LowReg(j) == LowReg(irq)
      ensures j % 128 == irq % 128 <==> HighReg(j) == HighReg(irq)
      ensures LowReg(j) != HighReg(irq) && LowReg(irq) != HighReg(j)
    {
      SamePairIff128Apart(j, irq);
      SamePairIff128Apart(irq, j);
    }
  }

  /** That is the one entry, up to 128 entries. */
  lemma WrittenAlone(t: seq<bv64>, irq: nat, raw: bv64)
    requires irq < |t| <= 128
    ensures Written(t, irq, raw) == t[irq := raw]
  {
  }

  // -------------------------------------------------------------------------
  // One chip
  // -------------------------------------------------------------------------

  class IoApic {
    const gsiBase: U32
    const maxEntries: U8
    var select: U8
    var registers: seq<bv32>

    ghost predicate Valid()
      reads this
    {
      |registers| == 0x100
    }

    /** `new`: the number of entries is read from the version register, plus one on u8. */
    constructor (gsiBase: U32, registers: seq<bv32>)
      requires |registers| == 0x100
      ensures Valid() && this.gsiBase == gsiBase && this.registers == registers
      ensures maxEntries == (((registers[1] >> 16) & 0xFF) as nat + 1) % 0x100
    {
      this.gsiBase := gsiBase;
      this.registers := registers;
      this.select := 1;
      this.maxEntries := (((registers[1] >> 16) & 0xFF) as nat + 1) % 0x100;
    }

    /** The redirection table as 64-bit entries. */
    ghost function Table(): (t: seq<bv64>)
      requires Valid()
      reads this
      ensures |t| == maxEntries
    {
      TableOf(registers, maxEntries)
    }

    method ReadReg(index: U8) returns (value: bv32)
      requires Valid()
      modifies this`select
      ensures Valid() && value == registers[index]
    {
      select := index;
      value := registers[select];
    }

    method WriteReg(index: U8, value: bv32)
      requires Valid()
      modifies this
      ensures Valid() && registers == old(registers)[index := value]
    {
      select := index;
      registers := registers[select := value];
    }

    method ReadRedirection(irq: U8) returns (r: Outcome<RedirectionEntry>)
      requires Valid()
      modifies this`select
      ensures Valid()
      ensures r == if irq < maxEntries then Returned(RedirectionEntry(Table()[irq])) else Panicked
    {
      if irq >= maxEntries {
        return Panicked;
      }
      var low := ReadReg(LowReg(irq));
      var high := ReadReg(HighReg(irq));
      r := Returned(RedirectionEntry(Join(low, high)));
    }

    /** The entry's two registers change; up to 128 entries, that is exactly one entry. */
    method WriteRedirection(irq: U8, entry: RedirectionEntry) returns (r: Outcome<()>)
      requires Valid()
      modifies this
      ensures Valid()
      ensures irq >= maxEntries ==> r == Panicked && registers == old(registers)
      ensures irq < maxEntries ==> r == Returned(())
      ensures irq < maxEntries ==> registers == Put(old(registers), irq, entry.raw)
      ensures irq < maxEntries ==> Table() == Written(old(Table()), irq, entry.raw)
      ensures irq < maxEntries <= 128 ==> Table() == old(Table())[irq := entry.raw]
    {
      if irq >= maxEntries {
        return Panicked;
      }
      WriteReg(LowReg(irq), Low(entry.raw));
      WriteReg(HighReg(irq), High(entry.raw));
      PutWrites(old(registers), maxEntries, irq, entry.raw);
      if maxEntries <= 128 {
        WrittenAlone(old(Table()), irq, entry.raw);
      }
      r := Returned(());
    }

    /** The pin is computed by a wrapping u32 subtraction and truncated to u8. */
    method RouteIrq(gsi: U32, vector: bv8, destApicId: bv8) returns (r: Outcome<()>)
      requires Valid()
      modifies this
      ensures Valid()
      ensures var pin := ((gsi - gsiBase) % 0x1_0000_0000) % 0x100;
        && (r.Panicked? <==> pin >= maxEntries)
        && (r.Panicked? ==> registers == old(registers))
        && (pin < maxEntries ==> registers == Put(old(registers), pin, Simple(vector, destApicId).raw))
        && (pin < maxEntries ==> Table() == Written(old(Table()), pin, Simple(vector, destApicId).raw))
        && (pin < maxEntries ==> Delivers(Table()[pin], vector, destApicId))
        && (pin < maxEntries <= 128 ==> Table() == old(Table())[pin := Simple(vector, destApicId).raw])
    {
      var pin := ((gsi - gsiBase) % 0x1_0000_0000) % 0x100;
      SimpleDelivers(vector, destApicId);
      r := WriteRedirection(pin, Simple(vector, destApicId));
    }

    method MaskIrq(irq: U8) returns (r: Outcome<()>)
      requires Valid()
      modifies this
      ensures Valid()
      ensures r.Panicked? <==> irq >= maxEntries
      ensures r.Panicked? ==> registers == old(registers)
      ensures irq < maxEntries ==>
        registers == Put(old(registers), irq, SetMasked(RedirectionEntry(old(Table())[irq]), true).raw)
      ensures irq < maxEntries ==>
        Table() == Written(old(Table()), irq, SetMasked(RedirectionEntry(old(Table())[irq]), true).raw)
      ensures irq < maxEntries <= 128 ==>
        Table() == old(Table())[irq := SetMasked(RedirectionEntry(old(Table())[irq]), true).raw]
    {
      var entry := ReadRedirection(irq);
      if entry.Panicked? {
        return Panicked;
      }
      r := WriteRedirection(irq, SetMasked(entry.value, true));
    }

    method UnmaskIrq(irq: U8) returns (r: Outcome<()>)
      requires Valid()
      modifies this
      ensures Valid()
      ensures r.Panicked? <==> irq >= maxEntries
      ensures r.Panicked? ==> registers == old(registers)
      ensures irq < maxEntries ==>
        registers == Put(old(registers), irq, SetMasked(RedirectionEntry(old(Table())[irq]), false).raw)
      ensures irq < maxEntries ==>
        Table() == Written(old(Table()), irq, SetMasked(RedirectionEntry(old(Table())[irq]), false).raw)
      ensures irq < maxEntries <= 128 ==>
        Table() == old(Table())[irq := SetMasked(RedirectionEntry(old(Table())[irq]), false).raw]
    {
      var entry := ReadRedirection(irq);
      if entry.Panicked? {
        return Panicked;
      }
      r := WriteRedirection(irq, SetMasked(entry.value, false));
    }

    /** However many entries there are, all end up masked, and only their registers change. */
    method MaskAll()
      requires Valid()
      modifies this
      ensures Valid()
      ensures Table() == seq(maxEntries, _ => MASKED)
      ensures forall i :: 0 <= i < maxEntries ==> Silent(Table()[i])
      ensures forall k :: 0 <= k < 0x100 && !InTable(k, maxEntries) ==> registers[k] == old(registers)[k]
    {
      for i := 0 to maxEntries
        invariant Valid()
        invariant forall k :: 0 <= k < 0x100 && !InTable(k, maxEntries) ==> registers[k] == old(registers)[k]
        invariant forall j :: 0 <= j < i ==> Table()[j] == MASKED
      {
        ghost var before := Table();
        var _ := WriteRedirection(i, RedirectionEntry(MASKED));
        assert forall j :: 0 <= j < i ==> before[j] == MASKED;
      }
      MaskedIsSilent();
    }
  }

  // -------------------------------------------------------------------------
  // The manager
  // -------------------------------------------------------------------------

  /** The test of `find_for_gsi`, with the end of the chip's range computed on u32. */
  predicate Covers(gsiBase: U32, maxEntries: U8, gsi: U32) {
    gsi >= gsiBase && gsi < (gsiBase + maxEntries) % 0x1_0000_0000
  }

  /** The interrupt is one of the chip's, and the end of the chip's range is a u32. */
  predicate InReach(gsiBase: nat, entries: nat, gsi: nat) {
    gsiBase <= gsi < gsiBase + entries <= U32_MAX
  }

  /** A chip serves exactly the interrupts of its range; one whose range runs up to 2^32 or beyond serves none. */
  lemma CoversIffInReach(gsiBase: U32, maxEntries: U8, gsi: U32)
    ensures Covers(gsiBase, maxEntries, gsi) <==> InReach(gsiBase, maxEntries, gsi)
  {
  }

  /** A covered interrupt's pin is its distance from the base: the truncation to u8 loses nothing. */
  lemma CoveredPin(gsiBase: U32, maxEntries: U8, gsi: U32)
    requires Covers(gsiBase, maxEntries, gsi)
    ensures ((gsi - gsiBase) % 0x1_0000_0000) % 0x100 == gsi - gsiBase < maxEntries
  {
  }

  /** A chip as a value: the interrupts it serves and its redirection table. */
  datatype Chip = Chip(gsiBase: U32, table: seq<bv64>)

  predicate CoveredBy(c: Chip, gsi: U32) {
    |c.table| <= 0xFF && Covers(c.gsiBase, |c.table|, gsi)
  }

  /** The first of the chips, from the n-th on, that covers the interrupt. */
  function FirstFrom(chips: seq<Chip>, gsi: U32, n: nat): (i: Option<nat>)
    requires n <= |chips|
    ensures i.Some? ==> n <= i.value < |chips| && CoveredBy(chips[i.value], gsi)
    ensures i.Some? ==> forall j :: n <= j < i.value ==> !CoveredBy(chips[j], gsi)
    ensures i.None? ==> forall j :: n <= j < |chips| ==> !CoveredBy(chips[j], gsi)
    decreases |chips| - n
  {
    if n == |chips| then None
    else if CoveredBy(chips[n], gsi) then Some(n)
    else FirstFrom(chips, gsi, n + 1)
  }

  /** The entry a covered interrupt is routed by. */
  function Lookup(chips: seq<Chip>, gsi: U32): Option<bv64> {
    match FirstFrom(chips, gsi, 0)
    case None => None
    case Some(i) =>
      CoveredPin(chips[i].gsiBase, |chips[i].table|, gsi);
      Some(chips[i].table[gsi - chips[i].gsiBase])
  }

  /** What each covered interrupt is routed to. */
  function Routes(chips: seq<Chip>): map<U32, bv64> {
    map gsi: U32 | 0 <= gsi <= U32_MAX && Lookup(chips, gsi).Some? :: Lookup(chips, gsi).value
  }

  /** The chip is in reach of the interrupt, and none before it is. */
  predicate FirstInReach(chips: seq<Chip>, i: nat, gsi: U32) {
    && i < |chips| && InReach(chips[i].gsiBase, |chips[i].table|, gsi)
    && forall j :: 0 <= j < i ==> !InReach(chips[j].gsiBase, |chips[j].table|, gsi)
  }

  /** An interrupt is routed by its entry on the first chip in reach of it, and has no route if there is none. */
  lemma RoutesAreByFirstInReach(chips: seq<Chip>, gsi: U32)
    requires forall i :: 0 <= i < |chips| ==> |chips[i].table| <= 0xFF
    ensures gsi in Routes(chips) <==>
      exists i :: 0 <= i < |chips| && InReach(chips[i].gsiBase, |chips[i].table|, gsi)
    ensures forall i: nat :: FirstInReach(chips, i, gsi) ==>
      gsi in Routes(chips) && Routes(chips)[gsi] == chips[i].table[gsi - chips[i].gsiBase]
  {
    forall i | 0 <= i < |chips|
      ensures CoveredBy(chips[i], gsi) <==> InReach(chips[i].gsiBase, |chips[i].table|, gsi)
    {
      CoversIffInReach(chips[i].gsiBase, |chips[i].table|, gsi);
    }
    assert gsi in Routes(chips) <==> Lookup(chips, gsi).Some?;
  }

  /** New tables of the same size on the same chips. */
  predicate SameShape(chips: seq<Chip>, chips': seq<Chip>) {
    && |chips| == |chips'|
    && forall j :: 0 <= j < |chips| ==>
         chips[j].gsiBase == chips'[j].gsiBase && |chips[j].table| == |chips'[j].table|
  }

  /** They leave every interrupt with its chip. */
  lemma {:induction false} SameShapeSameChip(chips: seq<Chip>, chips': seq<Chip>, gsi: U32, n: nat)
    requires n <= |chips| && SameShape(chips, chips')
    ensures FirstFrom(chips, gsi, n) == FirstFrom(chips', gsi, n)
    decreases |chips| - n
  {
    if n < |chips| {
      SameShapeSameChip(chips, chips', gsi, n + 1);
    }
  }

  /** A new table on one chip reroutes the interrupts of that chip, and those only, even where ranges overlap. */
  lemma NewTableLookup(chips: seq<Chip>, chips': seq<Chip>, i: nat, table: seq<bv64>, g: U32)
    requires i < |chips| && |table| == |chips[i].table|
    requires chips' == chips[i := Chip(chips[i].gsiBase, table)]
    ensures SameShape(chips, chips')
    ensures FirstFrom(chips, g, 0) == Some(i) ==> 0 <= g - chips[i].gsiBase < |table|
    ensures Lookup(chips', g) ==
      if FirstFrom(chips, g, 0) == Some(i) then Some(table[g - chips[i].gsiBase]) else Lookup(chips, g)
  {
    SameShapeSameChip(chips, chips', g, 0);
  }

  // -------------------------------------------------------------------------
  // Routes and histories of routes
  // -------------------------------------------------------------------------

  datatype Route = Route(gsi: U32, entry: bv64)

  function AfterRoute(routes: map<U32, bv64>, r: Route): map<U32, bv64> {
    if r.gsi in routes then routes[r.gsi := r.entry] else routes
  }

  lemma WriteChangesOneLookup(chips: seq<Chip>, chips': seq<Chip>, i: nat, gsi: U32, entry: bv64, g: U32)
    requires FirstFrom(chips, gsi, 0) == Some(i)
    requires 0 <= gsi - chips[i].gsiBase < |chips[i].table|
    requires chips' == chips[i := Chip(chips[i].gsiBase, chips[i].table[gsi - chips[i].gsiBase := entry])]
    ensures Lookup(chips', g) == if g == gsi then Some(entry) else Lookup(chips, g)
  {
    NewTableLookup(chips, chips', i, chips[i].table[gsi - chips[i].gsiBase := entry], g);
  }

  /** Writing an interrupt's entry on its chip changes that route and no other, even where ranges overlap. */
  lemma WriteChangesOneRoute(chips: seq<Chip>, chips': seq<Chip>, i: nat, gsi: U32, entry: bv64)
    requires FirstFrom(chips, gsi, 0) == Some(i)
    requires 0 <= gsi - chips[i].gsiBase < |chips[i].table|
    requires chips' == chips[i := Chip(chips[i].gsiBase, chips[i].table[gsi - chips[i].gsiBase := entry])]
    ensures Routes(chips') == AfterRoute(Routes(chips), Route(gsi, entry))
  {
    forall g: U32
      ensures Lookup(chips', g) == if g == gsi then Some(entry) else Lookup(chips, g)
    {
      WriteChangesOneLookup(chips, chips', i, gsi, entry, g);
    }
    assert Lookup(chips, gsi).Some?;
  }

  /** The chips after one call of `route_gsi`. */
  function Routed(chips: seq<Chip>, r: Route): seq<Chip> {
    match FirstFrom(chips, r.gsi, 0)
    case None => chips
    case Some(i) =>
      CoveredPin(chips[i].gsiBase, |chips[i].table|, r.gsi);
      chips[i := Chip(chips[i].gsiBase, Written(chips[i].table, r.gsi - chips[i].gsiBase, r.entry))]
  }

  function RoutedAll(chips: seq<Chip>, rs: seq<Route>): seq<Chip> {
    if rs == [] then chips else Routed(RoutedAll(chips, rs[..|rs| - 1]), rs[|rs| - 1])
  }

  /** The chips after `mask_all`. */
  function AllMasked(chips: seq<Chip>): seq<Chip> {
    seq(|chips|, i requires 0 <= i < |chips| => Chip(chips[i].gsiBase, seq(|chips[i].table|, _ => MASKED)))
  }

  predicate AtMost128(chips: seq<Chip>) {
    forall i :: 0 <= i < |chips| ==> |chips[i].table| <= 128
  }

  /** Where an interrupt's entry is kept: its chip, and the register pair there. */
  function Place(chips: seq<Chip>, gsi: U32): Option<(nat, nat)> {
    match FirstFrom(chips, gsi, 0)
    case None => None
    case Some(i) =>
      CoveredPin(chips[i].gsiBase, |chips[i].table|, gsi);
      Some((i, (gsi - chips[i].gsiBase) % 128))
  }

  /** Interrupts share a place only on chips of more than 128 entries. */
  lemma OnePlaceEach(chips: seq<Chip>, g: U32, h: U32)
    requires AtMost128(chips) && Place(chips, g).Some? && Place(chips, g) == Place(chips, h)
    ensures g == h
  {
    var i := Place(chips, g).value.0;
    CoveredPin(chips[i].gsiBase, |chips[i].table|, g);
    CoveredPin(chips[i].gsiBase, |chips[i].table|, h);
  }

  lemma RoutedLookup(chips: seq<Chip>, r: Route, g: U32)
    ensures SameShape(chips, Routed(chips, r))
    ensures Lookup(Routed(chips, r), g) ==
      if Place(chips, g).Some? && Place(chips, g) == Place(chips, r.gsi) then Some(r.entry) else Lookup(chips, g)
  {
    match FirstFrom(chips, r.gsi, 0)
    case None =>
    case Some(i) =>
      CoveredPin(chips[i].gsiBase, |chips[i].table|, r.gsi);
      NewTableLookup(chips, Routed(chips, r), i, Written(chips[i].table, r.gsi - chips[i].gsiBase, r.entry), g);
  }

  /** On chips of at most 128 entries a call changes one route if the interrupt is covered, and nothing otherwise. */
  lemma RoutedChangesOneRoute(chips: seq<Chip>, r: Route)
    ensures SameShape(chips, Routed(chips, r))
    ensures AtMost128(Routed(chips, r)) ==> Routes(Routed(chips, r)) == AfterRoute(Routes(chips), r)
  {
    RoutedLookup(chips, r, r.gsi);
    if AtMost128(chips) {
      match FirstFrom(chips, r.gsi, 0)
      case None => assert Lookup(chips, r.gsi).None?;
      case Some(i) =>
        CoveredPin(chips[i].gsiBase, |chips[i].table|, r.gsi);
        WrittenAlone(chips[i].table, r.gsi - chips[i].gsiBase, r.entry);
        WriteChangesOneRoute(chips, Routed(chips, r), i, r.gsi, r.entry);
    }
  }

  lemma MaskedLookup(chips: seq<Chip>, g: U32)
    ensures SameShape(chips, AllMasked(chips))
    ensures Lookup(AllMasked(chips), g) == if Lookup(chips, g).Some? then Some(MASKED) else None
  {
    SameShapeSameChip(chips, AllMasked(chips), g, 0);
  }

  /** The entry of the last route to the interrupt's place, if there was any. */
  function LastRouteTo(chips: seq<Chip>, rs: seq<Route>, gsi: U32): Option<bv64> {
    if rs == [] then None
    else if Place(chips, rs[|rs| - 1].gsi) == Place(chips, gsi) then Some(rs[|rs| - 1].entry)
    else LastRouteTo(chips, rs[..|rs| - 1], gsi)
  }

  /** The entry of the last route for the interrupt itself, or `none` if it was not routed. */
  function LastRouteOr(rs: seq<Route>, gsi: U32, none: bv64): bv64 {
    if rs == [] then none
    else if rs[|rs| - 1].gsi == gsi then rs[|rs| - 1].entry
    else LastRouteOr(rs[..|rs| - 1], gsi, none)
  }

  lemma {:induction false} LastRouteToItself(chips: seq<Chip>, rs: seq<Route>, gsi: U32, none: bv64)
    requires AtMost128(chips) && Lookup(chips, gsi).Some?
    ensures LastRouteOr(rs, gsi, none) ==
      match LastRouteTo(chips, rs, gsi) case None => none case Some(entry) => entry
  {
    if rs != [] {
      LastRouteToItself(chips, rs[..|rs| - 1], gsi, none);
      if Place(chips, gsi) == Place(chips, rs[|rs| - 1].gsi) {
        OnePlaceEach(chips, gsi, rs[|rs| - 1].gsi);
      }
    }
  }

  /** What an interrupt reads back as once everything is masked and the routes are made in order. */
  function Configured(chips: seq<Chip>, rs: seq<Route>, gsi: U32): Option<bv64> {
    if Lookup(chips, gsi).None? then None
    else if LastRouteTo(chips, rs, gsi).None? then Some(MASKED)
    else LastRouteTo(chips, rs, gsi)
  }

  /**
   * After masking everything and any history of routes, each covered interrupt
   * reads back as the last route to its place, or as masked; uncovered ones change nothing.
   */
  lemma {:induction false} LastRouteWins(chips: seq<Chip>, rs: seq<Route>, gsi: U32)
    ensures SameShape(chips, RoutedAll(AllMasked(chips), rs))
    ensures Lookup(RoutedAll(AllMasked(chips), rs), gsi) == Configured(chips, rs, gsi)
  {
    if rs == [] {
      MaskedLookup(chips, gsi);
    } else {
      var before, last := RoutedAll(AllMasked(chips), rs[..|rs| - 1]), rs[|rs| - 1];
      LastRouteWins(chips, rs[..|rs| - 1], gsi);
      RoutedLookup(before, last, gsi);
      SameShapeSameChip(chips, before, gsi, 0);
      SameShapeSameChip(chips, before, last.gsi, 0);
    }
  }

  /** On chips of at most 128 entries that is the last route for the interrupt itself. */
  lemma LastOwnRouteWins(chips: seq<Chip>, rs: seq<Route>, gsi: U32)
    requires AtMost128(chips)
    ensures Lookup(RoutedAll(AllMasked(chips), rs), gsi) ==
      if Lookup(chips, gsi).Some? then Some(LastRouteOr(rs, gsi, MASKED)) else None
  {
    LastRouteWins(chips, rs, gsi);
    if Lookup(chips, gsi).Some? {
      LastRouteToItself(chips, rs, gsi, MASKED);
    }
  }

  /** One call of `route_gsi`. */
  datatype Request = Request(gsi: U32, vector: bv8, destApicId: bv8)

  function RouteFor(q: Request): Route {
    Route(q.gsi, Simple(q.vector, q.destApicId).raw)
  }

  function RoutesFor(qs: seq<Request>): (rs: seq<Route>)
    ensures |rs| == |qs|
  {
    seq(|qs|, i requires 0 <= i < |qs| => RouteFor(qs[i]))
  }

  lemma RoutedDelivers(chips: seq<Chip>, gsi: U32, vector: bv8, destApicId: bv8)
    requires Lookup(chips, gsi).Some?
    ensures var chips' := Routed(chips, RouteFor(Request(gsi, vector, destApicId)));
      Lookup(chips', gsi).Some? && Delivers(Lookup(chips', gsi).value, vector, destApicId)
  {
    RoutedLookup(chips, RouteFor(Request(gsi, vector, destApicId)), gsi);
    SimpleDelivers(vector, destApicId);
  }

  /** The last request for an interrupt kept in the same place. */
  function LastRequestTo(chips: seq<Chip>, qs: seq<Request>, gsi: U32): Option<Request> {
    if qs == [] then None
    else if Place(chips, qs[|qs| - 1].gsi) == Place(chips, gsi) then Some(qs[|qs| - 1])
    else LastRequestTo(chips, qs[..|qs| - 1], gsi)
  }

  lemma {:induction false} LastRequestIsLastRoute(chips: seq<Chip>, qs: seq<Request>, gsi: U32)
    ensures LastRouteTo(chips, RoutesFor(qs), gsi) ==
      match LastRequestTo(chips, qs, gsi) case None => None case Some(q) => Some(RouteFor(q).entry)
  {
    if qs != [] {
      assert RoutesFor(qs)[..|qs| - 1] == RoutesFor(qs[..|qs| - 1]);
      LastRequestIsLastRoute(chips, qs[..|qs| - 1], gsi);
    }
  }

  /** The entry is in force as the request asked, or switched off if there was no request. */
  predicate Obeys(entry: bv64, q: Option<Request>) {
    match q
    case None => Silent(entry)
    case Some(q) => Delivers(entry, q.vector, q.destApicId)
  }

  /** Each covered interrupt is delivered as the last request for its place asked, or switched off. */
  lemma ConfiguredObeys(chips: seq<Chip>, qs: seq<Request>, gsi: U32)
    requires Lookup(chips, gsi).Some?
    ensures Configured(chips, RoutesFor(qs), gsi).Some?
    ensures Obeys(Configured(chips, RoutesFor(qs), gsi).value, LastRequestTo(chips, qs, gsi))
  {
    LastRequestIsLastRoute(chips, qs, gsi);
    match LastRequestTo(chips, qs, gsi)
    case None => MaskedIsSilent();
    case Some(q) => SimpleDelivers(q.vector, q.destApicId);
  }

  // -------------------------------------------------------------------------
  // The manager itself
  // -------------------------------------------------------------------------

  class IoApicManager {
    var ioapics: seq<IoApic>

    /** The chips are different devices, each with registers of its own. */
    ghost predicate Valid()
      reads this, ioapics
    {
      && (forall i :: 0 <= i < |ioapics| ==> ioapics[i].Valid())
      && (forall i, j :: 0 <= i < j < |ioapics| ==> ioapics[i] != ioapics[j])
    }

    /** The chips as values. */
    ghost function Chips(): (chips: seq<Chip>)
      requires Valid()
      reads this, ioapics
      ensures |chips| == |ioapics|
    {
      seq(|ioapics|, i requires 0 <= i < |ioapics| reads this, ioapics requires Valid() =>
        Chip(ioapics[i].gsiBase, ioapics[i].Table()))
    }

    constructor ()
      ensures Valid() && ioapics == []
    {
      ioapics := [];
    }

    method Add(ioapic: IoApic)
      requires Valid() && ioapic.Valid() && ioapic !in ioapics
      modifies this
      ensures Valid() && ioapics == old(ioapics) + [ioapic]
    {
      ioapics := ioapics + [ioapic];
    }

    method FindForGsi(gsi: U32) returns (chip: Option<IoApic>)
      requires Valid()
      ensures chip == match FirstFrom(Chips(), gsi, 0) case None => None case Some(i) => Some(ioapics[i])
      ensures chip.None? <==>
        forall i :: 0 <= i < |ioapics| ==> !InReach(ioapics[i].gsiBase, ioapics[i].maxEntries, gsi)
      ensures chip.Some? ==>
        exists i :: 0 <= i < |ioapics| && chip.value == ioapics[i]
          && InReach(ioapics[i].gsiBase, ioapics[i].maxEntries, gsi)
          && forall j :: 0 <= j < i ==> !InReach(ioapics[j].gsiBase, ioapics[j].maxEntries, gsi)
    {
      for i := 0 to |ioapics|
        invariant FirstFrom(Chips(), gsi, 0) == FirstFrom(Chips(), gsi, i)
        invariant forall j :: 0 <= j < i ==> !InReach(ioapics[j].gsiBase, ioapics[j].maxEntries, gsi)
      {
        CoversIffInReach(ioapics[i].gsiBase, ioapics[i].maxEntries, gsi);
        assert Chips()[i] == Chip(ioapics[i].gsiBase, ioapics[i].Table());
        if Covers(ioapics[i].gsiBase, ioapics[i].maxEntries, gsi) {
          return Some(ioapics[i]);
        }
      }
      chip := None;
    }

    /** Routing on one chip changes that chip's table only. */
    method RouteOn(chip: IoApic, ghost i: nat, gsi: U32, vector: bv8, destApicId: bv8) returns (r: Outcome<()>)
      requires Valid() && i < |ioapics| && chip == ioapics[i] && Covers(chip.gsiBase, chip.maxEntries, gsi)
      modifies ioapics
      ensures Valid() && !r.Panicked?
      ensures chip.gsiBase <= gsi < chip.gsiBase + chip.maxEntries
      ensures Chips() == old(Chips())[i := Chip(chip.gsiBase,
                Written(old(chip.Table()), gsi - chip.gsiBase, Simple(vector, destApicId).raw))]
    {
      CoveredPin(chip.gsiBase, chip.maxEntries, gsi);
      r := chip.RouteIrq(gsi, vector, destApicId);
    }

    /** The body of `route_gsi`: find the chip and route there, or do nothing. */
    method RouteWhereCovered(gsi: U32, vector: bv8, destApicId: bv8) returns (r: Outcome<()>)
      requires Valid()
      modifies ioapics
      ensures Valid()
      ensures !r.Panicked?
      ensures Chips() == Routed(old(Chips()), RouteFor(Request(gsi, vector, destApicId)))
    {
      ghost var was := Chips();
      var chip := FindForGsi(gsi);
      if chip.None? {
        return Returned(());
      }
      ghost var i := FirstFrom(was, gsi, 0).value;
      assert was[i] == Chip(chip.value.gsiBase, chip.value.Table());
      r := RouteOn(chip.value, i, gsi, vector, destApicId);
    }

    /** Routing writes the place of that interrupt and no other, as requested, and never panics. */
    method RouteGsi(gsi: U32, vector: bv8, destApicId: bv8) returns (r: Outcome<()>)
      requires Valid()
      modifies ioapics
      ensures Valid()
      ensures !r.Panicked?
      ensures Chips() == Routed(old(Chips()), RouteFor(Request(gsi, vector, destApicId)))
      ensures Lookup(old(Chips()), gsi).Some? ==>
        Lookup(Chips(), gsi).Some? && Delivers(Lookup(Chips(), gsi).value, vector, destApicId)
      ensures AtMost128(Chips()) ==>
        Routes(Chips()) == AfterRoute(old(Routes(Chips())), RouteFor(Request(gsi, vector, destApicId)))
    {
      ghost var was := Chips();
      r := RouteWhereCovered(gsi, vector, destApicId);
      RoutedChangesOneRoute(was, RouteFor(Request(gsi, vector, destApicId)));
      if Lookup(was, gsi).Some? {
        RoutedDelivers(was, gsi, vector, destApicId);
      }
    }

    method MaskAll()
      requires Valid()
      modifies ioapics
      ensures Valid()
      ensures Chips() == AllMasked(old(Chips()))
      ensures Routes(Chips()).Keys == old(Routes(Chips())).Keys
      ensures forall gsi :: gsi in Routes(Chips()) ==> Routes(Chips())[gsi] == MASKED
      ensures forall i, j :: 0 <= i < |Chips()| && 0 <= j < |Chips()[i].table| ==> Silent(Chips()[i].table[j])
    {
      ghost var was := Chips();
      for i := 0 to |ioapics|
        invariant Valid()
        invariant forall j :: 0 <= j < i ==> ioapics[j].Table() == seq(ioapics[j].maxEntries, _ => MASKED)
      {
        ioapics[i].MaskAll();
      }
      forall g: U32
        ensures Lookup(AllMasked(was), g) == if Lookup(was, g).Some? then Some(MASKED) else None
      {
        MaskedLookup(was, g);
      }
      assert Chips() == AllMasked(was);
      MaskedIsSilent();
    }

    /** The entry an interrupt is routed by, as found and read on the devices. */
    method ReadBack(gsi: U32) returns (entry: Option<RedirectionEntry>)
      requires Valid()
      modifies ioapics
      ensures Valid() && Chips() == old(Chips())
      ensures forall c :: c in ioapics ==> c.registers == old(c.registers)
      ensures entry == match Lookup(Chips(), gsi) case None => None case Some(raw) => Some(RedirectionEntry(raw))
    {
      var chip := FindForGsi(gsi);
      if chip.None? {
        return None;
      }
      ghost var i := FirstFrom(Chips(), gsi, 0).value;
      assert Chips()[i] == Chip(chip.value.gsiBase, chip.value.Table());
      CoveredPin(chip.value.gsiBase, chip.value.maxEntries, gsi);
      var r := chip.value.ReadRedirection(gsi - chip.value.gsiBase);
      entry := Some(r.value);
    }

    /** Masking everything and then routing: what each interrupt reads back as afterwards. */
    method MaskThenRoute(requests: seq<Request>)
      requires Valid()
      modifies ioapics
      ensures Valid()
      ensures Chips() == RoutedAll(AllMasked(old(Chips())), RoutesFor(requests))
      ensures forall gsi: U32 :: Lookup(Chips(), gsi) == Configured(old(Chips()), RoutesFor(requests), gsi)
      ensures AtMost128(Chips()) ==>
        forall gsi: U32 :: Lookup(Chips(), gsi) ==
          if Lookup(old(Chips()), gsi).Some? then Some(LastRouteOr(RoutesFor(requests), gsi, MASKED)) else None
      ensures forall gsi: U32 :: Lookup(old(Chips()), gsi).Some? ==>
        && Lookup(Chips(), gsi).Some?
        && Obeys(Lookup(Chips(), gsi).value, LastRequestTo(old(Chips()), requests, gsi))
    {
      ghost var was, routes := Chips(), RoutesFor(requests);
      MaskAll();
      for n := 0 to |requests|
        invariant Valid()
        invariant Chips() == RoutedAll(AllMasked(was), routes[..n])
      {
        var _ := RouteGsi(requests[n].gsi, requests[n].vector, requests[n].destApicId);
        assert routes[..n + 1][..n] == routes[..n];
      }
      assert routes[..|requests|] == routes;
      LastRouteWins(was, routes, 0);
      forall gsi: U32
        ensures Lookup(Chips(), gsi) == Configured(was, routes, gsi)
        ensures Lookup(was, gsi).Some? ==>
          Lookup(Chips(), gsi).Some? && Obeys(Lookup(Chips(), gsi).value, LastRequestTo(was, requests, gsi))
        ensures AtMost128(was) ==>
          Lookup(Chips(), gsi) == if Lookup(was, gsi).Some? then Some(LastRouteOr(routes, gsi, MASKED)) else None
      {
        LastRouteWins(was, routes, gsi);
        if Lookup(was, gsi).Some? {
          ConfiguredObeys(was, requests, gsi);
        }
        if AtMost128(was) {
          LastOwnRouteWins(was, routes, gsi);
        }
      }
    }
  }
}

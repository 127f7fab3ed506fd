/** A/B boot: slot status records, the selection rule, validation and the boot
    sequence, and what survives resets and power cuts at any write. */
module Boot {
  import opened Text

  // Flash layout, in bytes from the start of flash.
  const IMG_0_OFFSET: nat := 0xA000
  const IMG_1_OFFSET: nat := 0x1EA000
  const IMG_1_END: nat := 0x3CA000
  const FLASH_SIZE: nat := 0x400000
  const PAGE: nat := 0x1000
  const SLOT_SIZE: nat := IMG_1_END - IMG_1_OFFSET

  // Image status byte.
  const NEWER_MASK: byte := 0x01
  const VERIFY_MASK: byte := 0x06
  const IA_MASK: byte := 0x18
  const OLDER: byte := 0x00
  const NEWER: byte := 0x01
  const VERIFY_OK: byte := 0x02
  const VERIFY_FAIL: byte := 0x04
  const IA_OK: byte := 0x08
  const IA_FAIL: byte := 0x10

  /** rom_sys_status_get on an image status: the byte, no record, or an error. */
  datatype Record = Missing | Stat(b: byte) | Broken

  type Index = i: nat | i < 2

  function Other(i: Index): Index { 1 - i }

  /** The persistent state: flash contents, the two status records, the image
      version counter and the running-image record. */
  datatype Device = Device(flash: seq<byte>, stat0: Record, stat1: Record, counter: nat, running: Index)

  function StatOf(d: Device, i: Index): Record { if i == 0 then d.stat0 else d.stat1 }

  function WithStat(d: Device, i: Index, r: Record): Device {
    if i == 0 then d.(stat0 := r) else d.(stat1 := r)
  }

  /** The masked update of a status byte, creating the record if needed. */
  function Masked(r: Record, mask: byte, flag: byte): Record {
    match r
    case Missing => Stat(flag & mask)
    case Stat(b) => Stat((b & !mask) | (flag & mask))
    case Broken => Broken
  }

  /** rom_sys_set_img_flag. */
  function SetFlag(d: Device, i: Index, mask: byte, flag: byte): Device {
    WithStat(d, i, Masked(StatOf(d, i), mask, flag))
  }

  // ---------------------------------------------------------------- slots and the remap

  function SlotBase(i: Index): nat { if i == 0 then IMG_0_OFFSET else IMG_1_OFFSET }

  function Slot(d: Device, i: Index): (s: seq<byte>)
    requires |d.flash| == FLASH_SIZE
    ensures |s| == SLOT_SIZE
  {
    d.flash[SlotBase(i)..SlotBase(i) + SLOT_SIZE]
  }

  /** flash_offset_mapping: page numbers of the remapped window and its offset. */
  datatype Remap = Remap(firstPage: nat, lastPage: nat, offset: nat)

  const IMAGE_1_REMAP: Remap :=
    Remap(IMG_0_OFFSET / PAGE, IMG_1_OFFSET / PAGE - 1, (IMG_1_OFFSET - IMG_0_OFFSET) / PAGE)

  /** Where the CPU's view of an address comes from once the remap is set. */
  function Mapped(m: Remap, addr: nat): nat {
    if m.firstPage <= addr / PAGE <= m.lastPage then addr + m.offset * PAGE else addr
  }

  /** The loader always validates and starts the image at IMG_0_OFFSET; with the
      remap in force, every byte it sees there is the byte of slot 1. */
  lemma RemapShowsSlotOne(d: Device, k: nat)
    requires |d.flash| == FLASH_SIZE && k < SLOT_SIZE
    ensures Mapped(IMAGE_1_REMAP, IMG_0_OFFSET + k) == IMG_1_OFFSET + k
    ensures d.flash[Mapped(IMAGE_1_REMAP, IMG_0_OFFSET + k)] == Slot(d, 1)[k]
  {
    assert IMG_0_OFFSET / PAGE == 0xA && IMG_1_OFFSET / PAGE == 0x1EA;
    assert (IMG_0_OFFSET + k) / PAGE == 0xA + k / PAGE;
    assert k / PAGE <= 0x1DF;
  }

  /** What the loader reads at IMG_0_OFFSET when it boots image i. */
  function Window(flash: seq<byte>, i: Index): (s: seq<byte>)
    requires |flash| == FLASH_SIZE
    ensures |s| == SLOT_SIZE
  {
    if i == 0 then flash[IMG_0_OFFSET..IMG_0_OFFSET + SLOT_SIZE]
    else seq(SLOT_SIZE, k requires 0 <= k < SLOT_SIZE => WindowByte(flash, k))
  }

  function WindowByte(flash: seq<byte>, k: nat): byte
    requires |flash| == FLASH_SIZE && k < SLOT_SIZE
  {
    var a := Mapped(IMAGE_1_REMAP, IMG_0_OFFSET + k);
    if a < |flash| then flash[a] else 0
  }

  /** So it validates the very slot it has selected. */
  lemma WindowShowsSlot(d: Device, i: Index)
    requires |d.flash| == FLASH_SIZE
    ensures Window(d.flash, i) == Slot(d, i)
  {
    if i == 1 {
      forall k | 0 <= k < SLOT_SIZE ensures Window(d.flash, 1)[k] == Slot(d, 1)[k] {
        RemapShowsSlotOne(d, k);
      }
    }
  }

  // ---------------------------------------------------------------- selection

  predicate IsNewer(b: byte) { b & NEWER_MASK == NEWER }

  /** Marked newer and not known to be bad. */
  predicate Fresh(r: Record) {
    r.Stat? && IsNewer(r.b) && r.b & VERIFY_MASK != VERIFY_FAIL && r.b & IA_MASK != IA_FAIL
  }

  /** Verified before and accepted by the application. */
  predicate Proven(r: Record) {
    r.Stat? && r.b & VERIFY_MASK == VERIFY_OK && r.b & IA_MASK == IA_OK
  }

  datatype Found = Image(i: Index) | NoImage(code: int)

  /** boot_image_find, apart from the flag it may write. */
  function Find(s0: Record, s1: Record): (f: Found)
    ensures f.NoImage? ==> f.code < 0
  {
    if s0.Broken? then NoImage(-2)
    else if s1.Broken? then NoImage(-3)
    else if s0.Missing? && !s1.Missing? then NoImage(-4)
    else if s0.Missing? then Image(0)
    else if Fresh(s0) then Image(0)
    else if Fresh(s1) then Image(1)
    else if Proven(s0) then Image(0)
    else if Proven(s1) then Image(1)
    else NoImage(-5)
  }

  function Pick(d: Device): Found { Find(d.stat0, d.stat1) }

  /** The NEWER flag boot_image_find writes on a factory-fresh device. */
  function AfterFind(d: Device): Device {
    if d.stat0.Missing? && d.stat1.Missing? then SetFlag(d, 0, NEWER_MASK, NEWER) else d
  }

  // ---------------------------------------------------------------- validation

  datatype BootOpt = VerifyNone | VerifyImgOnly | VerifyCertImg

  /** The parts of the ROM that are not visible: what it accepts, and the version it reads. */
  datatype Rom = Rom(opt: BootOpt, certOk: seq<byte> -> bool, imgOk: seq<byte> -> bool,
                     version: seq<byte> -> nat)

  datatype Verdict = Accepted(counter: nat) | Rejected(code: int)

  /** image_x_validate: signature first, then the never-decreasing version counter. */
  function Validate(rom: Rom, image: seq<byte>, counter: nat): (v: Verdict)
    ensures v.Accepted? <==>
              || rom.opt == VerifyNone
              || ((rom.opt == VerifyCertImg ==> rom.certOk(image)) && (rom.opt == VerifyImgOnly ==> rom.imgOk(image))
                  && rom.version(image) >= counter)
    ensures v.Accepted? ==> v.counter >= counter && (rom.opt != VerifyNone ==> v.counter == rom.version(image))
  {
    if rom.opt == VerifyNone then Accepted(counter)
    else if rom.opt == VerifyCertImg && !rom.certOk(image) then Rejected(-3)
    else if rom.opt == VerifyImgOnly && !rom.imgOk(image) then Rejected(-4)
    else if rom.version(image) < counter then Rejected(-5)
    else Accepted(rom.version(image))
  }

  predicate Good(rom: Rom, d: Device, i: Index)
    requires |d.flash| == FLASH_SIZE
  {
    Validate(rom, Slot(d, i), d.counter).Accepted?
  }

  /** An accepted image is accepted again: raising the counter to its own version
      never locks it out. */
  lemma ValidateAgain(rom: Rom, image: seq<byte>, counter: nat)
    requires Validate(rom, image, counter).Accepted?
    ensures Validate(rom, image, Validate(rom, image, counter).counter)
            == Validate(rom, image, counter)
  {
  }

  // ---------------------------------------------------------------- the boot sequence

  /** The device after each persistent write of one boot, and which image started. */
  datatype Outcome = Outcome(writes: seq<Device>, booted: bool, image: Index)

  function Final(d: Device, o: Outcome): Device {
    if o.writes == [] then d else o.writes[|o.writes| - 1]
  }

  function BootOnce(rom: Rom, d: Device): Outcome
    requires |d.flash| == FLASH_SIZE
  {
    match Pick(d)
    case NoImage(_) => Outcome([], false, 0)
    case Image(i) =>
      var d1 := AfterFind(d);
      match Validate(rom, Slot(d1, i), d1.counter)
      case Rejected(_) => Outcome([d1, SetFlag(d1, i, VERIFY_MASK, VERIFY_FAIL)], false, i)
      case Accepted(c) =>
        var d2 := d1.(counter := c);
        var d3 := SetFlag(d2, i, VERIFY_MASK, VERIFY_OK);
        Outcome([d1, d2, d3, d3.(running := i)], true, i)
  }

  // ---------------------------------------------------------------- status bytes

  /** Setting one field leaves the other two alone. */
  lemma MaskedFields(b: byte)
    ensures var r := Masked(Stat(b), VERIFY_MASK, VERIFY_OK).b;
            r & VERIFY_MASK == VERIFY_OK && r & IA_MASK == b & IA_MASK && IsNewer(r) == IsNewer(b)
    ensures var r := Masked(Stat(b), VERIFY_MASK, VERIFY_FAIL).b;
            r & VERIFY_MASK == VERIFY_FAIL && r & IA_MASK == b & IA_MASK && IsNewer(r) == IsNewer(b)
    ensures var r := Masked(Stat(b), IA_MASK | NEWER_MASK, IA_OK | OLDER).b;
            r & VERIFY_MASK == b & VERIFY_MASK && r & IA_MASK == IA_OK && !IsNewer(r)
    ensures Fresh(Masked(Missing, NEWER_MASK, NEWER))
  {
  }

  /** The two writes that install a new image leave its record fresh, whatever it
      was before; after the first of them the record is not selectable. */
  lemma InstallFlags(r: Record)
    requires !r.Broken?
    ensures var cleared := Masked(r, IA_MASK | VERIFY_MASK | NEWER_MASK, 0);
            && !Fresh(cleared) && !Proven(cleared)
            && Fresh(Masked(cleared, NEWER_MASK, NEWER))
  {
  }

  /** Selectable by one of the rules. */
  predicate Eligible(r: Record) { Fresh(r) || Proven(r) }

  lemma VerifiedStaysEligible(r: Record)
    requires Eligible(r)
    ensures var ok := Masked(r, VERIFY_MASK, VERIFY_OK);
            Eligible(ok) && ok.b & VERIFY_MASK == VERIFY_OK && (Fresh(r) ==> Fresh(ok))
    ensures !Eligible(Masked(r, VERIFY_MASK, VERIFY_FAIL))
  {
    MaskedFields(r.b);
  }

  // ---------------------------------------------------------------- recovery

  /** An image marked VERIFY_FAIL is never selected. */
  lemma FailedNeverSelected(d: Device, i: Index)
    requires StatOf(d, i).Stat? && StatOf(d, i).b & VERIFY_MASK == VERIFY_FAIL
    ensures Pick(d) != Image(i)
  {
  }

  /** A boot changes the status byte of no slot but the one it selects, so the
      mark stays until an update rewrites it. */
  lemma BootKeepsOtherMarks(rom: Rom, d: Device, i: Index, k: nat)
    requires |d.flash| == FLASH_SIZE && StatOf(d, i).Stat? && Pick(d) != Image(i)
    requires k < |BootOnce(rom, d).writes|
    ensures StatOf(BootOnce(rom, d).writes[k], i) == StatOf(d, i)
  {
  }

  /** Readable records, with slot 0 known to the loader. */
  predicate Readable(d: Device) {
    |d.flash| == FLASH_SIZE && d.stat0.Stat? && !d.stat1.Broken?
  }

  /** Slot g can be fallen back on: eligible, good, and either verified before or
      the very slot the next boot selects. */
  predicate Fallback(rom: Rom, d: Device, g: Index) {
    && Readable(d) && Eligible(StatOf(d, g)) && Good(rom, d, g)
    && (StatOf(d, g).b & VERIFY_MASK == VERIFY_OK || Pick(d) == Image(g))
  }

  lemma EligibleFindsOne(d: Device, g: Index)
    requires Readable(d) && Eligible(StatOf(d, g))
    ensures Pick(d).Image? && Eligible(StatOf(d, Pick(d).i))
    ensures !Eligible(StatOf(d, Other(g))) ==> Pick(d) == Image(g)
  {
  }

  /** A boot that starts an image leaves that image as the fallback, the first boot of a
      factory-fresh device included. */
  lemma SuccessLeavesFallback(rom: Rom, d: Device)
    requires |d.flash| == FLASH_SIZE && BootOnce(rom, d).booted
    ensures var o := BootOnce(rom, d);
            && Fallback(rom, Final(d, o), o.image) && Final(d, o).running == o.image
            && StatOf(Final(d, o), o.image).b & VERIFY_MASK == VERIFY_OK
            && Pick(Final(d, o)) == Image(o.image)
  {
    var i, d1 := Pick(d).i, AfterFind(d);
    FreshFindsZero(d);
    ValidateAgain(rom, Slot(d1, i), d1.counter);
    VerifiedStaysEligible(StatOf(d1, i));
    var f := Final(d, BootOnce(rom, d));
    assert Slot(f, i) == Slot(d1, i);
    if !Fresh(StatOf(d1, i)) {
      MaskedFields(StatOf(d1, i).b);
    }
  }

  /** Neither slot has a record: the image was written by a factory tool. */
  predicate FactoryFresh(d: Device) {
    |d.flash| == FLASH_SIZE && d.stat0.Missing? && d.stat1.Missing?
  }

  /** Whatever selection finds, it leaves readable records and an eligible slot. */
  lemma FreshFindsZero(d: Device)
    requires |d.flash| == FLASH_SIZE && Pick(d).Image?
    ensures Readable(AfterFind(d)) && Eligible(StatOf(AfterFind(d), Pick(d).i))
    ensures Pick(AfterFind(d)) == Pick(d)
    ensures FactoryFresh(d) ==> Pick(d) == Image(0) && Fresh(AfterFind(d).stat0)
  {
    MaskedFields(0);
  }

  /** The first boot of a factory-fresh device with a good image starts it, and a cut after any of
      its writes leaves slot 0 to fall back on. */
  lemma FirstBoot(rom: Rom, d: Device, k: nat)
    requires FactoryFresh(d) && Good(rom, d, 0)
    ensures BootOnce(rom, d).booted && BootOnce(rom, d).image == 0
    ensures k < |BootOnce(rom, d).writes| ==> Fallback(rom, BootOnce(rom, d).writes[k], 0)
  {
    FreshFindsZero(d);
    SuccessLeavesFallback(rom, d);
    var d1 := AfterFind(d);
    assert Slot(d1, 0) == Slot(d, 0);
    ValidateAgain(rom, Slot(d1, 0), d1.counter);
    VerifiedStaysEligible(d1.stat0);
    if k < |BootOnce(rom, d).writes| {
      assert Slot(BootOnce(rom, d).writes[k], 0) == Slot(d, 0);
    }
  }

  /** A boot that fails with a fallback at hand leaves it as the next selection. */
  lemma FailureSelectsFallback(rom: Rom, d: Device, g: Index)
    requires Fallback(rom, d, g) && !BootOnce(rom, d).booted
    ensures var f := Final(d, BootOnce(rom, d));
            Fallback(rom, f, g) && Pick(f) == Image(g) && BootOnce(rom, f).booted
  {
    EligibleFindsOne(d, g);
    var i := Pick(d).i;
    assert i == Other(g);
    VerifiedStaysEligible(StatOf(d, i));
    var f := Final(d, BootOnce(rom, d));
    assert StatOf(f, g) == StatOf(d, g) && Slot(f, g) == Slot(d, g);
    EligibleFindsOne(f, g);
  }

  /** Cutting power after any write of a boot keeps a fallback. */
  lemma CutBootKeepsFallback(rom: Rom, d: Device, g: Index, k: nat) returns (g': Index)
    requires Fallback(rom, d, g) && k < |BootOnce(rom, d).writes|
    ensures Fallback(rom, BootOnce(rom, d).writes[k], g')
    ensures Pick(d) == Image(g) ==> Pick(BootOnce(rom, d).writes[k]) == Image(g) && g' == g
  {
    EligibleFindsOne(d, g);
    var o := BootOnce(rom, d);
    var i := Pick(d).i;
    if o.booted {
      g' := i;
      ValidateAgain(rom, Slot(d, i), d.counter);
      SuccessLeavesFallback(rom, d);
      assert Slot(o.writes[k], i) == Slot(d, i);
    } else {
      g' := g;
      FailureSelectsFallback(rom, d, g);
    }
  }

  // ---------------------------------------------------------------- bounded recovery

  /** The first or the second of two boots starts an image. */
  predicate RecoversInTwo(rom: Rom, d: Device)
    requires |d.flash| == FLASH_SIZE
  {
    var o := BootOnce(rom, d);
    o.booted || (|Final(d, o).flash| == FLASH_SIZE && BootOnce(rom, Final(d, o)).booted)
  }

  lemma FallbackRecovers(rom: Rom, d: Device, g: Index)
    requires Fallback(rom, d, g)
    ensures Pick(d).Image? && RecoversInTwo(rom, d)
  {
    EligibleFindsOne(d, g);
    if !BootOnce(rom, d).booted {
      FailureSelectsFallback(rom, d, g);
    }
  }

  /** With a good, proven slot, recovery within two boots is equivalent to both
      records being readable and slot 0 having one. */
  lemma BoundedRecovery(rom: Rom, d: Device, g: Index)
    requires |d.flash| == FLASH_SIZE && Proven(StatOf(d, g)) && Good(rom, d, g)
    ensures RecoversInTwo(rom, d) <==> d.stat0.Stat? && !d.stat1.Broken?
  {
    if d.stat0.Stat? && !d.stat1.Broken? {
      FallbackRecovers(rom, d, g);
    }
  }

  /** The plain claim fails: a good, proven slot 1 without a record for slot 0. */
  lemma RecoveryNeedsSlotZero(rom: Rom, flash: seq<byte>)
    requires |flash| == FLASH_SIZE
    ensures var d := Device(flash, Missing, Stat(VERIFY_OK | IA_OK), 0, 1);
            && Proven(StatOf(d, 1)) && Pick(d) == NoImage(-4)
            && !RecoversInTwo(rom, d)
            && (rom.opt == VerifyNone ==> Good(rom, d, 1))
  {
  }

  // ---------------------------------------------------------------- in terms of bits

  /** Marked newer, not failed by the loader and not failed by the application. */
  predicate FreshBits(r: Record) { r.Stat? && r.b & 0x01 == 0x01 && r.b & 0x06 != 0x04 && r.b & 0x18 != 0x10 }

  /** Verified by the loader and accepted by the application. */
  predicate ProvenBits(r: Record) { r.Stat? && r.b & 0x06 == 0x02 && r.b & 0x18 == 0x08 }

  /** Which slot a boot selects, and with which error it selects none: a fresh slot before a proven one,
      slot 0 before slot 1, and slot 0 without any record if neither has one. */
  lemma SelectionExact(d: Device)
    ensures Pick(d) == Image(0) <==>
              && !d.stat0.Broken? && !d.stat1.Broken?
              && (FreshBits(d.stat0) || (ProvenBits(d.stat0) && !FreshBits(d.stat1))
                  || (d.stat0.Missing? && d.stat1.Missing?))
    ensures Pick(d) == Image(1) <==>
              && d.stat0.Stat? && !FreshBits(d.stat0)
              && (FreshBits(d.stat1) || (ProvenBits(d.stat1) && !ProvenBits(d.stat0)))
    ensures Pick(d) == NoImage(-2) <==> d.stat0.Broken?
    ensures Pick(d) == NoImage(-3) <==> !d.stat0.Broken? && d.stat1.Broken?
    ensures Pick(d) == NoImage(-4) <==> d.stat0.Missing? && d.stat1.Stat?
    ensures Pick(d).NoImage? ==> Pick(d).code in {-2, -3, -4, -5}
  {
  }

  /** A masked write replaces the bits of the mask and keeps the others; a missing record counts as 0,
      one that cannot be read stays unreadable. */
  lemma MaskedLaw(b: byte, mask: byte, flag: byte)
    ensures var r := Masked(Stat(b), mask, flag);
            r.Stat? && r.b & mask == flag & mask && r.b & !mask == b & !mask
    ensures Masked(Missing, mask, flag) == Masked(Stat(0), mask, flag) && Masked(Broken, mask, flag) == Broken
  {
  }

  /** Which check rejects an image. */
  lemma RejectedBy(rom: Rom, image: seq<byte>, counter: nat)
    requires Validate(rom, image, counter).Rejected?
    ensures var c := Validate(rom, image, counter).code;
            && (c == -3 <==> rom.opt == VerifyCertImg && !rom.certOk(image))
            && (c == -4 <==> rom.opt == VerifyImgOnly && !rom.imgOk(image))
            && (c == -3 || c == -4 || (c == -5 && rom.version(image) < counter))
  {
  }

  /** What a boot leaves behind: flash and the other slot's record as they were; the selected slot marked
      verified or failed, its other bits kept; the counter raised to the version of an image that is
      checked and starts; the running image recorded when it starts. */
  lemma BootLeaves(rom: Rom, d: Device)
    requires |d.flash| == FLASH_SIZE && Pick(d).Image?
    ensures var o := BootOnce(rom, d);
            var i, f := Pick(d).i, Final(d, o);
            var b := if StatOf(d, i).Stat? then StatOf(d, i).b else 0x01;
            && o.image == i && (o.booted <==> Good(rom, d, i))
            && f.flash == d.flash && StatOf(f, Other(i)) == StatOf(d, Other(i))
            && StatOf(f, i).Stat?
            && StatOf(f, i).b & 0x06 == (if o.booted then 0x02 else 0x04) && StatOf(f, i).b & 0xF9 == b & 0xF9
            && f.running == (if o.booted then i else d.running)
            && f.counter == (if o.booted && rom.opt != VerifyNone then rom.version(Slot(d, i)) else d.counter)
  {
    var i := Pick(d).i;
    FreshFindsZero(d);
    var d1 := AfterFind(d);
    assert Slot(d1, i) == Slot(d, i);
    MarkBits(StatOf(d1, i).b);
    MarkBits(0);
  }

  lemma MarkBits(b: byte)
    ensures Masked(Stat(b), VERIFY_MASK, VERIFY_OK).b & 0x06 == 0x02
    ensures Masked(Stat(b), VERIFY_MASK, VERIFY_FAIL).b & 0x06 == 0x04
    ensures Masked(Stat(b), VERIFY_MASK, VERIFY_OK).b & 0xF9 == b & 0xF9
    ensures Masked(Stat(b), VERIFY_MASK, VERIFY_FAIL).b & 0xF9 == b & 0xF9
    ensures Masked(Missing, NEWER_MASK, NEWER) == Stat(0x01)
  {
  }

  /** Each write of a boot, in order: the flag of a device without records, the counter, the mark, the
      running image; a boot that starts nothing writes the mark at most. */
  lemma BootWrites(rom: Rom, d: Device)
    requires |d.flash| == FLASH_SIZE
    ensures var ws := BootOnce(rom, d).writes;
            && (Pick(d).NoImage? ==> ws == [] && !BootOnce(rom, d).booted)
            && (Pick(d).Image? && !BootOnce(rom, d).booted ==> |ws| == 2)
            && (BootOnce(rom, d).booted ==>
                  && |ws| == 4
                  && ws[1] == ws[0].(counter := ws[1].counter)
                  && ws[2] == WithStat(ws[1], Pick(d).i, StatOf(ws[2], Pick(d).i))
                  && ws[3] == ws[2].(running := Pick(d).i))
  {
  }
}

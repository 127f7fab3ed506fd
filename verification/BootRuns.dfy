/** Whole histories of boots, updates, resets and power cuts. */
module BootRuns {
  import opened Text
  import opened Boot
  import opened Ota

  /** The device, whether an image is executing, and the failed boots since one last was. */
  datatype Sys = Sys(dev: Device, up: bool, failed: nat)

  datatype Act =
    | PowerOn               // a complete boot
    | PowerOnCut(k: nat)    // a boot whose power is cut right after its k-th write
    | PowerOff              // a reset or power cut while an image runs
    | Program(f: seq<byte>) // an update erases or programs flash
    | Retire                // its first flag write, on the running slot
    | Clear                 // its second, on the other slot
    | Install               // its third, on the other slot

  ghost predicate Enabled(rom: Rom, s: Sys, a: Act) {
    && |s.dev.flash| == FLASH_SIZE
    && match a
       case PowerOn => !s.up
       case PowerOnCut(k) => !s.up && k < |BootOnce(rom, s.dev).writes|
       case Program(f) => s.up && OnlySlot(s.dev.flash, f, SlotBase(Other(s.dev.running)))
       case _ => s.up
  }

  ghost function Next(rom: Rom, s: Sys, a: Act): Sys
    requires Enabled(rom, s, a)
  {
    var d, r := s.dev, s.dev.running;
    match a
    case PowerOn =>
      var o := BootOnce(rom, d);
      Sys(Final(d, o), o.booted, if o.booted then 0 else s.failed + 1)
    case PowerOnCut(k) => s.(dev := BootOnce(rom, d).writes[k])
    case PowerOff => s.(up := false)
    case Program(f) => s.(dev := d.(flash := f))
    case Retire => s.(dev := SetFlag(d, r, IA_MASK | NEWER_MASK, IA_OK | OLDER))
    case Clear => s.(dev := SetFlag(d, Other(r), IA_MASK | VERIFY_MASK | NEWER_MASK, 0))
    case Install => s.(dev := SetFlag(d, Other(r), NEWER_MASK, NEWER))
  }

  ghost predicate History(rom: Rom, ss: seq<Sys>, acts: seq<Act>) {
    && |ss| == |acts| + 1
    && forall i :: 0 <= i < |acts| ==> Enabled(rom, ss[i], acts[i]) && ss[i + 1] == Next(rom, ss[i], acts[i])
  }

  /** A running image can be returned to; a stopped device has a fallback, and it is the next
      selection once a boot has failed, or has not been booted since it left the factory. */
  ghost predicate Safe(rom: Rom, s: Sys) {
    if s.up then AfterBoot(rom, s.dev, s.dev.running) && s.failed == 0
    else NeverBooted(rom, s) || exists g :: FallenBack(rom, s, g)
  }

  predicate NeverBooted(rom: Rom, s: Sys) {
    FactoryFresh(s.dev) && Good(rom, s.dev, 0) && !s.up && s.failed == 0
  }

  ghost predicate FallenBack(rom: Rom, s: Sys, g: Index) {
    Fallback(rom, s.dev, g) && s.failed <= 1 && (s.failed == 1 ==> Pick(s.dev) == Image(g))
  }

  lemma PowerOnSafe(rom: Rom, s: Sys)
    requires Safe(rom, s) && Enabled(rom, s, PowerOn)
    ensures Safe(rom, Next(rom, s, PowerOn))
  {
    var o := BootOnce(rom, s.dev);
    if NeverBooted(rom, s) {
      FirstBoot(rom, s.dev, 0);
    }
    if o.booted {
      SuccessLeavesFallback(rom, s.dev);
    } else {
      var g :| FallenBack(rom, s, g);
      FailureSelectsFallback(rom, s.dev, g);
      assert FallenBack(rom, Next(rom, s, PowerOn), g);
    }
  }

  lemma PowerOnCutSafe(rom: Rom, s: Sys, k: nat)
    requires Safe(rom, s) && Enabled(rom, s, PowerOnCut(k))
    ensures Safe(rom, Next(rom, s, PowerOnCut(k)))
  {
    if NeverBooted(rom, s) {
      FirstBoot(rom, s.dev, k);
      assert FallenBack(rom, Next(rom, s, PowerOnCut(k)), 0);
    } else {
      var g :| FallenBack(rom, s, g);
      var g' := CutBootKeepsFallback(rom, s.dev, g, k);
      assert FallenBack(rom, Next(rom, s, PowerOnCut(k)), g');
    }
  }

  lemma UpdateSafe(rom: Rom, s: Sys, a: Act)
    requires Safe(rom, s) && Enabled(rom, s, a) && s.up
    ensures Safe(rom, Next(rom, s, a))
  {
    var d, r := s.dev, s.dev.running;
    match a
    case PowerOff => assert FallenBack(rom, Next(rom, s, a), r);
    case Program(f) => CutAfterBoot(rom, d, d.(flash := f), r);
    case Retire => RetireKeeps(rom, d, r);
    case Clear => InstallKeeps(rom, d, r, IA_MASK | VERIFY_MASK | NEWER_MASK, 0);
    case Install => InstallKeeps(rom, d, r, NEWER_MASK, NEWER);
  }

  /** Main result.  Start with any image running after a successful boot, or with a factory-fresh
      device whose first image is good; let updates, resets and power cuts come in any order and number, the cuts also
      between the writes of a boot.  Then a boot always finds an image, and never
      fail two boots in a row. */
  lemma {:induction false} HistorySafe(rom: Rom, ss: seq<Sys>, acts: seq<Act>, i: nat)
    requires History(rom, ss, acts) && i < |ss|
    requires || (ss[0].up && ss[0].failed == 0 && AfterBoot(rom, ss[0].dev, ss[0].dev.running))
             || NeverBooted(rom, ss[0])
    ensures Safe(rom, ss[i])
    ensures ss[i].failed <= 1 && Pick(ss[i].dev).Image?
    ensures |ss[i].dev.flash| == FLASH_SIZE && RecoversInTwo(rom, ss[i].dev)
    ensures ss[i].failed == 1 ==> BootOnce(rom, ss[i].dev).booted
  {
    if i > 0 {
      HistorySafe(rom, ss, acts, i - 1);
      var s, a := ss[i - 1], acts[i - 1];
      if a == PowerOn {
        PowerOnSafe(rom, s);
      } else if a.PowerOnCut? {
        PowerOnCutSafe(rom, s, a.k);
      } else {
        UpdateSafe(rom, s, a);
      }
    }
    SafeMeans(rom, ss[i]);
  }

  lemma SafeMeans(rom: Rom, s: Sys)
    requires Safe(rom, s)
    ensures s.failed <= 1 && |s.dev.flash| == FLASH_SIZE && Pick(s.dev).Image? && RecoversInTwo(rom, s.dev)
    ensures s.failed == 1 ==> BootOnce(rom, s.dev).booted
  {
    if s.up {
      AfterBootRecovers(rom, s.dev, s.dev.running);
    } else if NeverBooted(rom, s) {
      FirstBoot(rom, s.dev, 0);
    } else {
      var g :| FallenBack(rom, s, g);
      FallbackRecovers(rom, s.dev, g);
    }
  }

  predicate MarkedBad(d: Device, i: Index) {
    StatOf(d, i).Stat? && StatOf(d, i).b & VERIFY_MASK == VERIFY_FAIL
  }

  /** A mark of failure stays, and keeps the slot unselected, until the update
      running in the other slot clears it. */
  lemma MarkStays(rom: Rom, s: Sys, a: Act, i: Index)
    requires Enabled(rom, s, a) && MarkedBad(s.dev, i)
    requires !(a == Clear && i == Other(s.dev.running))
    ensures MarkedBad(Next(rom, s, a).dev, i) && Pick(s.dev) != Image(i)
  {
    FailedNeverSelected(s.dev, i);
    if a == PowerOn {
      var o := BootOnce(rom, s.dev);
      if o.writes != [] {
        BootKeepsOtherMarks(rom, s.dev, i, |o.writes| - 1);
      }
    } else if a.PowerOnCut? {
      BootKeepsOtherMarks(rom, s.dev, i, a.k);
    } else {
      var b := StatOf(s.dev, i).b;
      MaskedFields(b);
      assert Masked(Stat(b), NEWER_MASK, NEWER).b & VERIFY_MASK == b & VERIFY_MASK;
    }
  }

  lemma {:induction false} MarkStaysOver(rom: Rom, ss: seq<Sys>, acts: seq<Act>, i: Index, m: nat, n: nat)
    requires History(rom, ss, acts) && m <= n < |ss| && MarkedBad(ss[m].dev, i)
    requires forall k :: m <= k < n ==> !(acts[k] == Clear && i == Other(ss[k].dev.running))
    ensures MarkedBad(ss[n].dev, i) && Pick(ss[n].dev) != Image(i)
  {
    hide Next, Enabled;
    if m < n {
      MarkStaysOver(rom, ss, acts, i, m, n - 1);
      MarkStays(rom, ss[n - 1], acts[n - 1], i);
    }
    FailedNeverSelected(ss[n].dev, i);
  }
}

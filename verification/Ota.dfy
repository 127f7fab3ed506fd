/** The over-the-air downloader: it erases and programs the slot that is not
    running, then moves the status flags. */
module Ota {
  import opened Text
  import opened HttpHeader
  import opened Boot

  const RECBUFFER_LEN: nat := 1516
  const EAGAIN: int := 11
  const ERASED: byte := 0xFF

  // ---------------------------------------------------------------- flash

  /** A flash operation succeeds, or fails leaving anything in the bytes it covers. */
  datatype OpResult = OpDone | OpFailed(code: int, left: seq<byte>)

  datatype FlashOp = Erase(addr: nat) | Write(addr: nat, len: nat)

  function Patched(f: seq<byte>, addr: nat, data: seq<byte>): (r: seq<byte>)
    requires addr + |data| <= |f|
    ensures |r| == |f|
    ensures r[addr..addr + |data|] == data
    ensures forall k :: 0 <= k < |f| && !(addr <= k < addr + |data|) ==> r[k] == f[k]
  {
    f[..addr] + data + f[addr + |data|..]
  }

  /** Programming can only clear bits. */
  function Programmed(f: seq<byte>, addr: nat, data: seq<byte>): seq<byte>
    requires addr + |data| <= |f|
  {
    Patched(f, addr, seq(|data|, i requires 0 <= i < |data| => f[addr + i] & data[i]))
  }

  predicate AllErased(f: seq<byte>, lo: nat, hi: nat) {
    hi <= |f| && forall k :: lo <= k < hi ==> f[k] == ERASED
  }

  /** On erased bytes, programming stores the data. */
  lemma ProgramErased(f: seq<byte>, addr: nat, data: seq<byte>)
    requires addr + |data| <= |f| && AllErased(f, addr, addr + |data|)
    ensures Programmed(f, addr, data) == Patched(f, addr, data)
  {
    var stored := seq(|data|, i requires 0 <= i < |data| => f[addr + i] & data[i]);
    forall i | 0 <= i < |data| ensures stored[i] == data[i] {
      assert f[addr + i] == ERASED;
      assert ERASED & data[i] == data[i];
    }
    assert stored == data;
  }

  // ---------------------------------------------------------------- audit of one download

  /** Every operation stays in the slot, every write goes to pages erased before
      it, and no erase hits bytes written before it. */
  ghost predicate SafeOps(log: seq<FlashOp>, base: nat) {
    && (forall j :: 0 <= j < |log| && log[j].Erase? ==>
          base <= log[j].addr && log[j].addr + PAGE <= base + SLOT_SIZE)
    && (forall j :: 0 <= j < |log| && log[j].Write? ==>
          base <= log[j].addr && log[j].addr + log[j].len <= base + SLOT_SIZE)
    && (forall j, p: nat :: 0 <= j < |log| && log[j].Write? && Touches(log[j], p) ==> Erase(p) in log[..j])
    && (forall i, j :: 0 <= i < j < |log| && log[i].Write? && log[j].Erase? ==>
          log[i].addr + log[i].len <= log[j].addr)
  }

  /** The page at address p holds a byte of the operation. */
  predicate Touches(op: FlashOp, p: nat) {
    op.Write? && p % PAGE == 0 && p < op.addr + op.len && op.addr < p + PAGE
  }

  /** The progress of a download: pages below `erased` are erased, bytes below
      `written` are written. */
  ghost predicate Progress(log: seq<FlashOp>, base: nat, written: nat, erased: nat) {
    && base % PAGE == 0 && erased % PAGE == 0 && base <= written <= erased <= base + SLOT_SIZE
    && SafeOps(log, base)
    && (forall p: nat :: base <= p < erased && p % PAGE == 0 ==> Erase(p) in log)
    && (forall j :: 0 <= j < |log| && log[j].Write? ==> log[j].addr + log[j].len <= written)
  }

  lemma ProgressErase(log: seq<FlashOp>, base: nat, written: nat, erased: nat)
    requires Progress(log, base, written, erased) && erased + PAGE <= base + SLOT_SIZE
    ensures Progress(log + [Erase(erased)], base, written, erased + PAGE)
  {
    var r := log + [Erase(erased)];
    forall p: nat | base <= p < erased + PAGE && p % PAGE == 0 ensures Erase(p) in r {
      if p < erased {
        assert Erase(p) in log;
      } else {
        assert p == erased;
        assert r[|log|] == Erase(p);
      }
    }
    forall j, p: nat | 0 <= j < |r| && r[j].Write? && Touches(r[j], p) ensures Erase(p) in r[..j] {
      assert r[j] == log[j] && r[..j] == log[..j];
    }
  }

  lemma ProgressWrite(log: seq<FlashOp>, base: nat, written: nat, erased: nat, len: nat)
    requires Progress(log, base, written, erased) && written + len <= erased
    ensures Progress(log + [Write(written, len)], base, written + len, erased)
  {
    var r := log + [Write(written, len)];
    forall j, p: nat | 0 <= j < |r| && r[j].Write? && Touches(r[j], p) ensures Erase(p) in r[..j] {
      if j < |log| {
        assert r[j] == log[j] && r[..j] == log[..j];
      } else {
        assert r[..j] == log;
        assert base <= p < erased;
      }
    }
    forall p: nat | base <= p < erased && p % PAGE == 0 ensures Erase(p) in r {
      assert Erase(p) in log;
    }
  }

  // ---------------------------------------------------------------- the board

  datatype Ret = Done | Error(code: int) | Interrupted

  /** Bytes outside the slot are as they were. */
  ghost predicate OnlySlot(before: seq<byte>, after: seq<byte>, base: nat) {
    && |after| == |before|
    && forall k :: 0 <= k < |before| && !(base <= k < base + SLOT_SIZE) ==> after[k] == before[k]
  }

  lemma ShorterPrefix(f: seq<byte>, base: nat, body: seq<byte>, offset: nat, n: nat)
    requires n <= offset <= |body| && base + offset <= |f| && f[base..base + offset] == body[..offset]
    ensures f[base..base + n] == body[..n]
  {
    assert f[base..base + n] == f[base..base + offset][..n];
    assert body[..n] == body[..offset][..n];
  }

  lemma LaterSlice(head: seq<byte>, stream: seq<byte>, pos: nat, n: nat)
    requires pos + n <= |stream|
    ensures stream[pos..pos + n] == (head + stream)[|head| + pos..|head| + pos + n]
  {
  }

  class Board {
    var flash: seq<byte>
    var stat0: Record
    var stat1: Record
    var counter: nat
    var running: Index
    /** The device after each persistent write: where power can be cut. */
    ghost var cuts: seq<Device>
    /** The flash operations of the current download. */
    ghost var audit: seq<FlashOp>

    ghost predicate Valid()
      reads this
    {
      |flash| == FLASH_SIZE
    }

    ghost function Dev(): Device
      reads this
    {
      Device(flash, stat0, stat1, counter, running)
    }

    /** raw_flash_erase of one page. */
    method EraseFlash(addr: nat, r: OpResult) returns (ret: int)
      requires Valid() && addr + PAGE <= FLASH_SIZE
      modifies this`flash, this`cuts, this`audit
      ensures Valid()
      ensures r.OpDone? ==> ret == 0 && flash == Patched(old(flash), addr, seq(PAGE, _ => ERASED))
      ensures r.OpFailed? ==> (ret == r.code && r.code != 0) || (ret == -1 && r.code == 0)
      ensures forall k :: 0 <= k < FLASH_SIZE && !(addr <= k < addr + PAGE) ==> flash[k] == old(flash)[k]
      ensures cuts == old(cuts) + [Dev()] && audit == old(audit) + [Erase(addr)]
    {
      match r {
        case OpDone =>
          flash := Patched(flash, addr, seq(PAGE, _ => ERASED));
          ret := 0;
        case OpFailed(code, left) =>
          if |left| == PAGE {
            flash := Patched(flash, addr, left);
          }
          ret := if code == 0 then -1 else code;
      }
      cuts := cuts + [Dev()];
      audit := audit + [Erase(addr)];
    }

    /** raw_flash_write. */
    method WriteFlash(addr: nat, data: seq<byte>, r: OpResult) returns (ret: int)
      requires Valid() && addr + |data| <= FLASH_SIZE
      modifies this`flash, this`cuts, this`audit
      ensures Valid()
      ensures r.OpDone? ==> ret == 0 && flash == Programmed(old(flash), addr, data)
      ensures r.OpFailed? ==> ret == -1
      ensures forall k :: 0 <= k < FLASH_SIZE && !(addr <= k < addr + |data|) ==> flash[k] == old(flash)[k]
      ensures cuts == old(cuts) + [Dev()] && audit == old(audit) + [Write(addr, |data|)]
    {
      match r {
        case OpDone =>
          flash := Programmed(flash, addr, data);
          ret := 0;
        case OpFailed(code, left) =>
          if |left| == |data| {
            flash := Patched(flash, addr, left);
          }
          ret := -1;
      }
      cuts := cuts + [Dev()];
      audit := audit + [Write(addr, |data|)];
    }

    /** Erase page by page until the data fits below the erase mark. */
    method EraseAhead(base: nat, offset: nat, eraseAt: nat, end: nat, ops: nat -> OpResult, op: nat,
                      ghost d0: Device, ghost c0: seq<Device>)
      returns (ret: int, eraseAt': nat, op': nat)
      requires Valid() && base + SLOT_SIZE <= FLASH_SIZE && end <= base + SLOT_SIZE
      requires Within(d0, c0, Dev(), cuts, base)
      requires Progress(audit, base, base + offset, eraseAt) && AllErased(flash, base + offset, eraseAt)
      modifies this`flash, this`cuts, this`audit
      ensures Valid() && Within(d0, c0, Dev(), cuts, base) && SafeOps(audit, base)
      ensures (forall n: nat :: ops(n).OpDone?) ==> ret == 0
      ensures ret == 0 ==>
                && end <= eraseAt'
                && Progress(audit, base, base + offset, eraseAt') && AllErased(flash, base + offset, eraseAt')
                && flash[base..base + offset] == old(flash)[base..base + offset]
    {
      hide SafeOps, Progress, Within;
      ret, eraseAt', op' := 0, eraseAt, op;
      ProgressFacts(audit, base, base + offset, eraseAt');
      while end > eraseAt'
        invariant Valid() && ret == 0
        invariant Within(d0, c0, Dev(), cuts, base)
        invariant Progress(audit, base, base + offset, eraseAt')
        invariant AllErased(flash, base + offset, eraseAt')
        invariant flash[base..base + offset] == old(flash)[base..base + offset]
        decreases base + SLOT_SIZE - eraseAt'
      {
        ghost var before, cutsBefore := Dev(), cuts;
        ProgressFacts(audit, base, base + offset, eraseAt');
        PageFits(base, eraseAt', end);
        ProgressErase(audit, base, base + offset, eraseAt');
        ret := EraseFlash(eraseAt', ops(op'));
        WithinStep(d0, c0, before, cutsBefore, base, Dev(), eraseAt', PAGE);
        op' := op' + 1;
        if ret != 0 {
          ProgressFacts(audit, base, base + offset, eraseAt' + PAGE);
          return;
        }
        ErasedMore(before.flash, flash, base + offset, eraseAt');
        KeptBelow(before.flash, flash, base, base + offset, eraseAt');
        eraseAt' := eraseAt' + PAGE;
      }
      ProgressFacts(audit, base, base + offset, eraseAt');
    }

    /** Erase ahead of the data, then program it. */
    method StoreChunk(base: nat, offset: nat, eraseAt: nat, data: seq<byte>, ops: nat -> OpResult, op: nat,
                      ghost d0: Device, ghost c0: seq<Device>)
      returns (ret: int, eraseAt': nat, op': nat)
      requires Valid() && base + SLOT_SIZE <= FLASH_SIZE
      requires Within(d0, c0, Dev(), cuts, base)
      requires Progress(audit, base, base + offset, eraseAt) && AllErased(flash, base + offset, eraseAt)
      requires data != [] && offset + |data| <= SLOT_SIZE
      modifies this`flash, this`cuts, this`audit
      ensures Valid() && Within(d0, c0, Dev(), cuts, base) && SafeOps(audit, base)
      ensures (forall n: nat :: ops(n).OpDone?) ==> ret == 0
      ensures ret == 0 ==>
                && Progress(audit, base, base + offset + |data|, eraseAt')
                && AllErased(flash, base + offset + |data|, eraseAt')
                && flash[base..base + offset + |data|] == old(flash)[base..base + offset] + data
    {
      hide SafeOps, Progress, Within, Programmed;
      ret, eraseAt', op' := EraseAhead(base, offset, eraseAt, base + offset + |data|, ops, op, d0, c0);
      if ret != 0 {
        return;
      }
      ghost var before, cutsBefore := Dev(), cuts;
      ProgressWrite(audit, base, base + offset, eraseAt', |data|);
      ProgramErased(flash, base + offset, data);
      ret := WriteFlash(base + offset, data, ops(op'));
      op' := op' + 1;
      WithinStep(d0, c0, before, cutsBefore, base, Dev(), base + offset, |data|);
      ProgressFacts(audit, base, base + offset + |data|, eraseAt');
      if ret == 0 {
        WrittenMore(before.flash, flash, base, base + offset, data);
      }
    }

    /** http_rsp_image.  `first` is the first read, `code` the HTTP status found in
        it, `stream` what the connection carries after it, `sizes` the results of
        the following reads; the run ends when no further read result is given. */
    method HttpRspImage(first: seq<byte>, code: int, stream: seq<byte>, sizes: seq<int>, ops: nat -> OpResult)
      returns (ret: Ret, overrun: bool, ghost asks: seq<int>)
      requires Valid() && |first| <= RECBUFFER_LEN
      modifies this`flash, this`cuts, this`audit
      ensures Valid()
      ensures Within(old(Dev()), old(cuts), Dev(), cuts, SlotBase(Other(running)))
      ensures SafeOps(audit, SlotBase(Other(running)))
      ensures ret.Done? ==> code == 200 && Stored(flash, SlotBase(Other(running)), first, stream)
      ensures ret.Done? ==> forall header, n: nat :: Announces(first, header, n) ==>
                Holds(flash, SlotBase(Other(running)), first[|header|..] + stream, n)
      ensures |first| == 0 ==> ret == Error(-2)
      ensures |first| > 0 && code != 200 ==> ret == Error(-3)
      ensures |first| > 0 && code == 200 && !(0 <= BodyLen(first) <= SLOT_SIZE) ==> ret == Error(-4)
      ensures |first| == 0 || code != 200 || !(0 <= BodyLen(first) <= SLOT_SIZE) ==>
                flash == old(flash) && audit == [] && asks == []
      ensures forall k :: 0 <= k < |asks| ==> asks[k] <= 1516 && (overrun || 0 < asks[k])
      ensures |first| > 0 && code == 200 && (forall n: nat :: ops(n).OpDone?)
              && 0 <= |first| - HdrLen(first) <= BodyLen(first) <= SLOT_SIZE
              && Steady(sizes, BodyLen(first), |Body(first, stream)|) ==>
                ret.Done?
      ensures overrun ==> BodyLen(first) < |first| - HdrLen(first)
      ensures code == 200 && 0 <= BodyLen(first) < |first| - HdrLen(first) && (forall n: nat :: ops(n).OpDone?) ==>
                overrun
    {
      hide SafeOps, Progress, Within, HdrLen, BodyLen, Body, Stored, Announces, Steady, Holds;
      audit, overrun, asks := [], false, [];
      ghost var d0, c0 := Dev(), cuts;
      var base := SlotBase(Other(running));
      WithinStart(d0, c0, base);
      ProgressStart(base);
      if |first| == 0 {
        return Error(-2), false, asks;
      }
      if code != 200 {
        return Error(-3), false, asks;
      }
      var hdrLen, bodyLen := HdrLen(first), BodyLen(first);
      if bodyLen < 0 || bodyLen > SLOT_SIZE {
        return Error(-4), false, asks;
      }
      if |first| < hdrLen {
        return Error(-5), false, asks;
      }
      BodySplits(first, stream);
      ret, overrun, asks := ReceiveBody(base, first[hdrLen..], bodyLen, stream, sizes, ops, d0, c0);
      if ret.Done? {
        StoredWhole(flash, base, first, stream);
        forall header, n: nat | Announces(first, header, n) {
          StoredMeans(flash, base, first, header, n, stream);
        }
      }
    }

    /** Store one buffer of the body, unless it would not fit into the slot. */
    method TakeChunk(base: nat, offset: nat, eraseAt: nat, data: seq<byte>, ghost body: seq<byte>,
                     ops: nat -> OpResult, op: nat, ghost d0: Device, ghost c0: seq<Device>)
      returns (ret: int, offset': nat, eraseAt': nat, op': nat)
      requires Valid() && base + SLOT_SIZE <= FLASH_SIZE && offset <= SLOT_SIZE
      requires Within(d0, c0, Dev(), cuts, base)
      requires Progress(audit, base, base + offset, eraseAt) && AllErased(flash, base + offset, eraseAt)
      requires offset + |data| <= |body| && data == body[offset..offset + |data|]
      requires flash[base..base + offset] == body[..offset]
      modifies this`flash, this`cuts, this`audit
      ensures Valid() && Within(d0, c0, Dev(), cuts, base) && SafeOps(audit, base)
      ensures offset + |data| <= SLOT_SIZE && (forall n: nat :: ops(n).OpDone?) ==> ret == 0
      ensures ret == 0 ==>
                && offset' == offset + |data| <= SLOT_SIZE
                && Progress(audit, base, base + offset', eraseAt') && AllErased(flash, base + offset', eraseAt')
                && flash[base..base + offset'] == body[..offset']
    {
      hide SafeOps, Progress, Within, AllErased;
      ProgressFacts(audit, base, base + offset, eraseAt);
      ret, offset', eraseAt', op' := 0, offset, eraseAt, op;
      if data != [] {
        if offset + |data| > SLOT_SIZE {
          ret := -6;
          return;
        }
        ret, eraseAt', op' := StoreChunk(base, offset, eraseAt, data, ops, op, d0, c0);
        offset' := offset + |data|;
        assert body[..offset] + data == body[..offset'];
      }
    }

    /** The receive loop: store what has arrived, then read at most what is missing; `overrun` says
        that it asked for a negative number of bytes. */
    method ReceiveBody(base: nat, head: seq<byte>, bodyLen: nat, stream: seq<byte>, sizes: seq<int>,
                       ops: nat -> OpResult, ghost d0: Device, ghost c0: seq<Device>)
      returns (ret: Ret, overrun: bool, ghost asks: seq<int>)
      requires Valid() && base + SLOT_SIZE <= FLASH_SIZE && bodyLen <= SLOT_SIZE && |head| <= SLOT_SIZE
      requires Within(d0, c0, Dev(), cuts, base) && Progress(audit, base, base, base)
      modifies this`flash, this`cuts, this`audit
      ensures Valid() && Within(d0, c0, Dev(), cuts, base) && SafeOps(audit, base)
      ensures ret.Done? ==>
                bodyLen <= |head + stream| && flash[base..base + bodyLen] == (head + stream)[..bodyLen]
      ensures overrun ==> bodyLen < |head|
      ensures bodyLen < |head| && (forall n: nat :: ops(n).OpDone?) ==> overrun
      ensures forall k :: 0 <= k < |asks| ==> asks[k] <= 1516 && (overrun || 0 < asks[k])
      ensures (forall n: nat :: ops(n).OpDone?) && |head| <= bodyLen && Steady(sizes, bodyLen, |head + stream|) ==>
                ret.Done?
    {
      assert AllErased(flash, base, base);
      hide SafeOps, Progress, Within, AllErased;
      ghost var body := head + stream;
      var offset: nat, eraseAt: nat, op: nat, i: nat, pos: nat := 0, base, 0, 0, 0;
      var data := head;
      overrun, asks := false, [];
      while true
        invariant Valid() && Within(d0, c0, Dev(), cuts, base) && offset <= SLOT_SIZE
        invariant Progress(audit, base, base + offset, eraseAt) && AllErased(flash, base + offset, eraseAt)
        invariant i <= |sizes| && pos <= |stream| && !overrun
        invariant offset + |data| == |head| + pos <= |body|
        invariant data == body[offset..offset + |data|]
        invariant flash[base..base + offset] == body[..offset]
        invariant i == 0 ==> offset == 0 && data == head
        invariant i > 0 ==> offset + |data| <= bodyLen && |head| <= bodyLen
        invariant forall k :: 0 <= k < |asks| ==> 0 < asks[k] <= 1516
        invariant Steady(sizes, bodyLen, |body|) ==> Min(bodyLen, i) <= offset + |data|
        decreases |sizes| - i
      {
        ProgressFacts(audit, base, base + offset, eraseAt);
        var r;
        r, offset, eraseAt, op := TakeChunk(base, offset, eraseAt, data, body, ops, op, d0, c0);
        if r != 0 {
          return Error(r), false, asks;
        }
        var want := bodyLen - offset;
        if want == 0 {
          return Done, false, asks;
        }
        overrun := want < 0;
        if want > RECBUFFER_LEN {
          want := RECBUFFER_LEN;
        }
        if i == |sizes| {
          return Interrupted, overrun, asks;
        }
        asks := asks + [want];
        var got := sizes[i];
        i := i + 1;
        if got < 0 && got != -EAGAIN {
          return Error(-7), overrun, asks;
        }
        if overrun {
          ShorterPrefix(flash, base, body, offset, bodyLen);
          return Done, true, asks;
        }
        var n := if got <= 0 then 0 else Min(got, Min(want, |stream| - pos));
        data := stream[pos..pos + n];
        LaterSlice(head, stream, pos, n);
        pos := pos + n;
      }
    }

    /** boot_image_find: returns 0 and an index, or a negative code. */
    method BootImageFind() returns (ret: int, index: Index)
      requires Valid()
      modifies this`stat0
      ensures Valid()
      ensures Pick(old(Dev())) == (if ret == 0 then Image(index) else NoImage(ret))
      ensures Dev() == AfterFind(old(Dev()))
    {
      ret, index := 0, 0;
      if stat0.Broken? {
        return -2, 0;
      }
      if stat1.Broken? {
        return -3, 0;
      }
      if !stat0.Stat? && stat1.Stat? {
        return -4, 0;
      }
      if !stat0.Stat? && !stat1.Stat? {
        stat0 := Masked(stat0, NEWER_MASK, NEWER);
        return 0, 0;
      }
      if stat0.Stat? && stat0.b & NEWER_MASK == NEWER {
        if stat0.b & VERIFY_MASK != VERIFY_FAIL && stat0.b & IA_MASK != IA_FAIL {
          return 0, 0;
        }
      }
      if stat1.Stat? && stat1.b & NEWER_MASK == NEWER {
        if stat1.b & VERIFY_MASK != VERIFY_FAIL && stat1.b & IA_MASK != IA_FAIL {
          return 0, 1;
        }
      }
      if stat0.Stat? && stat0.b & VERIFY_MASK == VERIFY_OK && stat0.b & IA_MASK == IA_OK {
        return 0, 0;
      }
      if stat1.Stat? && stat1.b & VERIFY_MASK == VERIFY_OK && stat1.b & IA_MASK == IA_OK {
        return 0, 1;
      }
      return -5, 0;
    }

    /** The boot sequence of `main`, up to the jump or the endless loop. */
    method PowerOn(rom: Rom) returns (booted: bool, image: Index)
      requires Valid()
      modifies this
      ensures Valid()
      ensures var o := BootOnce(rom, old(Dev()));
              && booted == o.booted && (o.writes != [] ==> image == o.image)
              && Dev() == Final(old(Dev()), o) && cuts == old(cuts) + o.writes
    {
      var ret;
      ret, image := BootImageFind();
      if ret < 0 {
        assert cuts + [] == cuts;
        return false, image;
      }
      ghost var d1 := Dev();
      cuts := cuts + [d1];
      var content := Window(flash, image);
      WindowShowsSlot(d1, image);
      var verdict := Validate(rom, content, counter);
      if verdict.Rejected? {
        var r := SetImgFlag(image, VERIFY_MASK, VERIFY_FAIL, true);
        return false, image;
      }
      counter := verdict.counter;
      cuts := cuts + [Dev()];
      var r := SetImgFlag(image, VERIFY_MASK, VERIFY_OK, true);
      running := image;
      cuts := cuts + [Dev()];
      booted := true;
    }

    /** rom_sys_set_img_flag, which may fail without effect. */
    method SetImgFlag(i: Index, mask: byte, flag: byte, ok: bool) returns (ret: int)
      requires Valid()
      modifies this`stat0, this`stat1, this`cuts
      ensures Valid() && (ret == 0 <==> ok)
      ensures Dev() == (if ok then SetFlag(old(Dev()), i, mask, flag) else old(Dev()))
      ensures cuts == old(cuts) + [Dev()]
    {
      if ok {
        if i == 0 {
          stat0 := Masked(stat0, mask, flag);
        } else {
          stat1 := Masked(stat1, mask, flag);
        }
      }
      cuts := cuts + [Dev()];
      ret := if ok then 0 else -1;
    }

    /** ota_demo_task once connected: download, then retire the running image and
        install the new one.  `flagOk` says which flag writes succeed. */
    method OtaTask(rom: Rom, first: seq<byte>, code: int, stream: seq<byte>, sizes: seq<int>,
                   ops: nat -> OpResult, flagOk: (bool, bool, bool)) returns (ret: Ret)
      requires Valid() && |first| <= RECBUFFER_LEN && AfterBoot(rom, Dev(), running)
      modifies this
      ensures Valid() && running == old(running) && AfterBoot(rom, Dev(), running)
      ensures old(cuts) <= cuts
      ensures forall k :: |old(cuts)| <= k < |cuts| ==> AfterBoot(rom, cuts[k], running)
      ensures ret.Done? && flagOk == (true, true, true) ==>
                && Fresh(StatOf(Dev(), Other(running))) && !Fresh(StatOf(Dev(), running))
                && Proven(StatOf(Dev(), running))
                && Stored(flash, SlotBase(Other(running)), first, stream)
      ensures ret.Interrupted? || (ret.Error? && ret.code < 0) ==> stat0 == old(stat0) && stat1 == old(stat1)
      ensures !(ret.Interrupted? || (ret.Error? && ret.code < 0)) ==>
                && StatOf(Dev(), running) == Update(old(StatOf(Dev(), running)), 0x19, 0x08, flagOk.0)
                && StatOf(Dev(), Other(running)) ==
                   Update(Update(old(StatOf(Dev(), Other(running))), 0x1F, 0, flagOk.1), 0x01, 0x01, flagOk.2)
      ensures |first| > 0 && code == 200 && (forall n: nat :: ops(n).OpDone?)
              && 0 <= |first| - HdrLen(first) <= BodyLen(first) <= SLOT_SIZE
              && Steady(sizes, BodyLen(first), |Body(first, stream)|) ==>
                ret.Done?
    {
      hide Within, SafeOps, AfterBoot, HdrLen, BodyLen, Stored, Masked, Fresh, Proven, Body, Steady, Announces;
      ghost var d0, c0, r := Dev(), cuts, running;
      var overrun;
      ghost var asks;
      ret, overrun, asks := HttpRspImage(first, code, stream, sizes, ops);
      WithinAfterBoot(rom, d0, c0, Dev(), cuts, r);
      if ret.Interrupted? || (ret.Error? && ret.code < 0) {
        return;
      }
      ghost var d1 := Dev();
      var res1 := SetImgFlag(running, IA_MASK | NEWER_MASK, IA_OK | OLDER, flagOk.0);
      RetireKeeps(rom, d1, r);
      ghost var d2 := Dev();
      var res2 := SetImgFlag(Other(running), IA_MASK | VERIFY_MASK | NEWER_MASK, 0, flagOk.1);
      InstallKeeps(rom, d2, r, IA_MASK | VERIFY_MASK | NEWER_MASK, 0);
      ghost var d3 := Dev();
      var res3 := SetImgFlag(Other(running), NEWER_MASK, NEWER, flagOk.2);
      InstallKeeps(rom, d3, r, NEWER_MASK, NEWER);
      InstalledFlags(rom, d1, r);
    }
  }

  function Update(r: Record, mask: byte, flag: byte, ok: bool): Record { if ok then Masked(r, mask, flag) else r }

  /** The first n bytes of the body are at `base`. */
  predicate Holds(f: seq<byte>, base: nat, body: seq<byte>, n: nat) {
    n <= |body| && base + n <= |f| && f[base..base + n] == body[..n]
  }

  /** The connection gives at least one byte a read, until the announced body is complete. */
  predicate Steady(sizes: seq<int>, bodyLen: int, available: nat) {
    bodyLen <= available && bodyLen <= |sizes| && forall k :: 0 <= k < |sizes| ==> sizes[k] > 0
  }

  /** The first read starts with `header`, which announces n bytes of body. */
  ghost predicate Announces(first: seq<byte>, header: seq<byte>, n: nat) {
    && header <= first && IsHeader(header, first[|header|..])
    && exists before, k, after :: LengthField(first, before, k, n, after)
  }

  ghost predicate LengthField(s: seq<byte>, before: seq<byte>, k: nat, n: nat, after: seq<byte>) {
    s == WithLength(before, k, Bytes(Dec(n)), after) && 0 !in before && FirstField(before, s)
  }

  lemma {:induction false} AnnouncedLength(first: seq<byte>, header: seq<byte>, n: nat)
    requires Announces(first, header, n)
    ensures HdrLen(first) == |header| <= |first| && BodyLen(first) == n
  {
    assert header + first[|header|..] == first;
    HdrLenExact(header, first[|header|..]);
    var before, k, after :| LengthField(first, before, k, n, after);
    hide IsHeader, FirstField, HdrLen, BodyLen, Bytes, Dec, WithLength;
    DecimalLength(before, k, n, after);
  }

  lemma {:induction false} StoredMeans(f: seq<byte>, base: nat, first: seq<byte>, header: seq<byte>, n: nat,
                                       stream: seq<byte>)
    requires Announces(first, header, n)
    ensures var body := first[|header|..] + stream;
            Stored(f, base, first, stream) <==>
              n <= SLOT_SIZE && base + SLOT_SIZE <= |f| && Holds(f, base, body, n)
  {
    hide Announces, HdrLen, BodyLen, Body;
    AnnouncedLength(first, header, n);
    BodySplits(first, stream);
    if base + SLOT_SIZE <= |f| && n <= SLOT_SIZE {
      assert f[base..base + SLOT_SIZE][..n] == f[base..base + n];
    }
  }

  function Min(a: int, b: int): int { if a < b then a else b }

  /** The response body as the peer sends it. */
  function Body(first: seq<byte>, stream: seq<byte>): seq<byte> {
    (if HdrLen(first) <= |first| then first[HdrLen(first)..] else []) + stream
  }

  // ---------------------------------------------------------------- crash safety

  /** The state a successful boot of r establishes and an update must keep. */
  predicate AfterBoot(rom: Rom, d: Device, r: Index) {
    && Readable(d) && d.running == r
    && Eligible(StatOf(d, r)) && StatOf(d, r).b & VERIFY_MASK == VERIFY_OK
    && Good(rom, d, r)
  }

  lemma BootedIsAfterBoot(rom: Rom, d: Device)
    requires |d.flash| == FLASH_SIZE && BootOnce(rom, d).booted
    ensures AfterBoot(rom, Final(d, BootOnce(rom, d)), BootOnce(rom, d).image)
  {
    SuccessLeavesFallback(rom, d);
  }

  /** Whatever the other slot holds, two boots suffice and the first selects something. */
  lemma AfterBootRecovers(rom: Rom, d: Device, r: Index)
    requires AfterBoot(rom, d, r)
    ensures Pick(d).Image? && RecoversInTwo(rom, d)
  {
    FallbackRecovers(rom, d, r);
  }

  /** Changing only the other slot, in flash or in its record, keeps the state. */
  lemma OtherSlotIsFree(rom: Rom, d: Device, d': Device, r: Index)
    requires AfterBoot(rom, d, r)
    requires |d'.flash| == FLASH_SIZE && Slot(d', r) == Slot(d, r) && StatOf(d', r) == StatOf(d, r)
    requires d'.counter == d.counter && d'.running == r
    requires if r == 0 then !d'.stat1.Broken? else d'.stat0.Stat?
    ensures AfterBoot(rom, d', r)
  {
  }

  lemma CutAfterBoot(rom: Rom, d: Device, cut: Device, r: Index)
    requires AfterBoot(rom, d, r) && CutInSlot(d, cut, SlotBase(Other(r)))
    ensures AfterBoot(rom, cut, r)
  {
    assert Slot(cut, r) == Slot(d, r);
    OtherSlotIsFree(rom, d, cut, r);
  }

  lemma WithinAfterBoot(rom: Rom, d0: Device, c0: seq<Device>, d: Device, cuts: seq<Device>, r: Index)
    requires AfterBoot(rom, d0, r) && Within(d0, c0, d, cuts, SlotBase(Other(r)))
    ensures AfterBoot(rom, d, r) && c0 <= cuts
    ensures forall k :: |c0| <= k < |cuts| ==> AfterBoot(rom, cuts[k], r)
  {
    CutAfterBoot(rom, d0, d, r);
    forall k | |c0| <= k < |cuts| ensures AfterBoot(rom, cuts[k], r) {
      CutAfterBoot(rom, d0, cuts[k], r);
    }
  }

  /** Retiring the running image leaves it proven. */
  lemma RetireKeeps(rom: Rom, d: Device, r: Index)
    requires AfterBoot(rom, d, r)
    ensures AfterBoot(rom, SetFlag(d, r, IA_MASK | NEWER_MASK, IA_OK | OLDER), r)
  {
    var d' := SetFlag(d, r, IA_MASK | NEWER_MASK, IA_OK | OLDER);
    MaskedFields(StatOf(d, r).b);
    assert Slot(d', r) == Slot(d, r);
  }

  lemma InstallKeeps(rom: Rom, d: Device, r: Index, mask: byte, flag: byte)
    requires AfterBoot(rom, d, r)
    ensures AfterBoot(rom, SetFlag(d, Other(r), mask, flag), r)
  {
    var d' := SetFlag(d, Other(r), mask, flag);
    assert Slot(d', r) == Slot(d, r);
    OtherSlotIsFree(rom, d, d', r);
  }

  function Installed(d: Device, r: Index): Device {
    SetFlag(SetFlag(SetFlag(d, r, IA_MASK | NEWER_MASK, IA_OK | OLDER),
                    Other(r), IA_MASK | VERIFY_MASK | NEWER_MASK, 0),
            Other(r), NEWER_MASK, NEWER)
  }

  lemma InstalledFlags(rom: Rom, d: Device, r: Index)
    requires AfterBoot(rom, d, r)
    ensures var f := Installed(d, r);
            Fresh(StatOf(f, Other(r))) && !Fresh(StatOf(f, r)) && Proven(StatOf(f, r))
  {
    MaskedFields(StatOf(d, r).b);
    InstallFlags(StatOf(d, Other(r)));
  }

  /** After a complete update the new image is selected; if it does not validate,
      the boot after that selects the image that ran the update, and starts it. */
  lemma FailedUpdateRollsBack(rom: Rom, d: Device, r: Index)
    requires AfterBoot(rom, d, r)
    ensures var f := Installed(d, r);
            && |f.flash| == FLASH_SIZE && Pick(f) == Image(Other(r))
            && (!Good(rom, f, Other(r)) ==>
                  var g := Final(f, BootOnce(rom, f));
                  !BootOnce(rom, f).booted && |g.flash| == FLASH_SIZE
                  && Pick(g) == Image(r) && BootOnce(rom, g).booted && BootOnce(rom, g).image == r)
  {
    var f := Installed(d, r);
    InstalledFlags(rom, d, r);
    RetireKeeps(rom, d, r);
    var d1 := SetFlag(d, r, IA_MASK | NEWER_MASK, IA_OK | OLDER);
    InstallKeeps(rom, d1, r, IA_MASK | VERIFY_MASK | NEWER_MASK, 0);
    InstallKeeps(rom, SetFlag(d1, Other(r), IA_MASK | VERIFY_MASK | NEWER_MASK, 0), r, NEWER_MASK, NEWER);
    if !Good(rom, f, Other(r)) {
      FailureSelectsFallback(rom, f, r);
    }
  }

  // ---------------------------------------------------------------- small facts about flash contents

  /** The slot at `base` starts with exactly the announced part of the body. */
  ghost predicate Stored(f: seq<byte>, base: nat, first: seq<byte>, stream: seq<byte>) {
    var n, body := BodyLen(first), Body(first, stream);
    && 0 <= n <= |body| && n <= SLOT_SIZE && base + SLOT_SIZE <= |f|
    && f[base..base + SLOT_SIZE][..n] == body[..n]
  }

  lemma BodySplits(first: seq<byte>, stream: seq<byte>)
    requires HdrLen(first) <= |first|
    ensures Body(first, stream) == first[HdrLen(first)..] + stream
  {
  }

  lemma StoredWhole(f: seq<byte>, base: nat, first: seq<byte>, stream: seq<byte>)
    requires 0 <= BodyLen(first) <= |Body(first, stream)| && BodyLen(first) <= SLOT_SIZE
    requires base + SLOT_SIZE <= |f|
    requires f[base..base + BodyLen(first)] == Body(first, stream)[..BodyLen(first)]
    ensures Stored(f, base, first, stream)
  {
    hide BodyLen, Body;
    assert f[base..base + SLOT_SIZE][..BodyLen(first)] == f[base..base + BodyLen(first)];
  }

  lemma WithinStart(d: Device, c: seq<Device>, base: nat)
    ensures Within(d, c, d, c, base)
  {
  }

  lemma ProgressStart(base: nat)
    requires base == IMG_0_OFFSET || base == IMG_1_OFFSET
    ensures Progress([], base, base, base) && SafeOps([], base)
  {
  }

  lemma ProgressFacts(log: seq<FlashOp>, base: nat, written: nat, erased: nat)
    requires Progress(log, base, written, erased)
    ensures base % PAGE == 0 && erased % PAGE == 0 && base <= written <= erased <= base + SLOT_SIZE
    ensures SafeOps(log, base)
  {
  }

  /** A page that starts below an address inside the slot ends inside the slot. */
  lemma PageFits(base: nat, page: nat, limit: nat)
    requires base % PAGE == 0 && page % PAGE == 0 && page < limit <= base + SLOT_SIZE
    ensures page + PAGE <= base + SLOT_SIZE
  {
  }

  lemma ErasedMore(f: seq<byte>, g: seq<byte>, lo: nat, page: nat)
    requires page + PAGE <= |f| && lo <= page && AllErased(f, lo, page)
    requires g == Patched(f, page, seq(PAGE, _ => ERASED))
    ensures AllErased(g, lo, page + PAGE)
  {
    forall k | lo <= k < page + PAGE ensures g[k] == ERASED {
      if k >= page {
        assert g[k] == g[page..page + PAGE][k - page];
      }
    }
  }

  lemma KeptBelow(f: seq<byte>, g: seq<byte>, lo: nat, hi: nat, page: nat)
    requires lo <= hi <= page && page + PAGE <= |f| == |g|
    requires forall k :: 0 <= k < |f| && !(page <= k < page + PAGE) ==> g[k] == f[k]
    ensures g[lo..hi] == f[lo..hi]
  {
  }

  lemma WrittenMore(f: seq<byte>, g: seq<byte>, base: nat, at: nat, data: seq<byte>)
    requires base <= at && at + |data| <= |f| && g == Patched(f, at, data)
    ensures g[base..at + |data|] == f[base..at] + data
    ensures forall hi: nat :: AllErased(f, at, hi) ==> AllErased(g, at + |data|, hi)
  {
    assert g[base..at + |data|] == g[base..at] + g[at..at + |data|];
  }

  /** A point where power may be cut: a download has changed its slot at most. */
  ghost predicate CutInSlot(before: Device, cut: Device, base: nat) {
    && OnlySlot(before.flash, cut.flash, base)
    && cut == before.(flash := cut.flash)
  }

  /** Since the device was d0, with cuts c0, only the slot at `base` has changed,
      now and at every cut. */
  ghost predicate Within(d0: Device, c0: seq<Device>, d: Device, cuts: seq<Device>, base: nat) {
    && CutInSlot(d0, d, base)
    && c0 <= cuts
    && forall i :: |c0| <= i < |cuts| ==> CutInSlot(d0, cuts[i], base)
  }

  lemma WithinStep(d0: Device, c0: seq<Device>, d: Device, cuts: seq<Device>, base: nat,
                   d': Device, addr: nat, len: nat)
    requires Within(d0, c0, d, cuts, base)
    requires base <= addr && addr + len <= base + SLOT_SIZE && |d'.flash| == |d.flash|
    requires d' == d.(flash := d'.flash)
    requires forall k :: 0 <= k < |d.flash| && !(addr <= k < addr + len) ==> d'.flash[k] == d.flash[k]
    ensures Within(d0, c0, d', cuts + [d'], base)
  {
  }
}

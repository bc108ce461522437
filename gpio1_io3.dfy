/** The register-mapped backend shared by the three register LED drivers: the
    five 32-bit registers that drive pin GPIO1_IO03 of the SoC, the `__iomem`
    handles through which a driver reaches them, and the read-modify-write
    steps the drivers apply.  The LED is wired active-low: data-register bit 3
    high is OFF, low is ON. */
module Gpio1Io3 {
  import opened Kernel
  import opened Lifecycle

  /** CCM_CCGR1 bits 26-27: the clock gate of GPIO1. */
  const CG13_MASK: bv32 := 0x3 << 26
  /** Bit 3 of GPIO1_DR and GPIO1_GDIR: pin IO03. */
  const IO3_BIT: bv32 := 1 << 3
  /** Value written verbatim to the pin-mux register (ALT5, GPIO1_IO03). */
  const MUX_GPIO: bv32 := 0x05
  /** Value written verbatim to the pad-control register. */
  const PAD_CONFIG: bv32 := 0x10B0

  /** The protocol bytes of the register drivers. */
  const LED_OFF: bv8 := 0
  const LED_ON: bv8 := 1

  /** CCGR1 after the open's `val &= ~(0x3 << 26); val |= 0x03 << 26`: both
      clock-gate bits set, every other bit as it was. */
  function EnableClock(v: bv32): (r: bv32)
    ensures r & CG13_MASK == CG13_MASK
    ensures r & !CG13_MASK == v & !CG13_MASK
  {
    (v & !CG13_MASK) | (0x03 << 26)
  }

  /** `val |= 1 << 3`: bit 3 set, every other bit as it was. */
  function SetIo3(v: bv32): (r: bv32)
    ensures r & IO3_BIT == IO3_BIT
    ensures r & !IO3_BIT == v & !IO3_BIT
  {
    v | IO3_BIT
  }

  /** `val &= ~(1 << 3)`: bit 3 clear, every other bit as it was. */
  function ClearIo3(v: bv32): (r: bv32)
    ensures r & IO3_BIT == 0
    ensures r & !IO3_BIT == v & !IO3_BIT
  {
    v & !IO3_BIT
  }

  /** The byte the read handlers report for a data-register value:
      `val & (1 << 3) ? LED_OFF : LED_ON`. */
  function StateOf(dr: bv32): (b: bv8)
    ensures b == LED_OFF || b == LED_ON
    ensures b == LED_ON <==> dr & IO3_BIT == 0
  {
    if dr & IO3_BIT != 0 then LED_OFF else LED_ON
  }

  /** The data register after a write handler received command byte `b`, or
      None when it rejects the byte.  Only the two protocol bytes are
      accepted, the result reads back as the byte written, and no bit but
      bit 3 moves. */
  function Command(b: bv8, dr: bv32): (r: Option<bv32>)
    ensures r.Some? <==> b == LED_OFF || b == LED_ON
    ensures r.Some? ==> StateOf(r.value) == b
    ensures r.Some? ==> r.value & !IO3_BIT == dr & !IO3_BIT
  {
    if b == LED_OFF then Some(SetIo3(dr))
    else if b == LED_ON then Some(ClearIo3(dr))
    else None
  }

  /** A write followed by a read reports the byte written, for both protocol
      bytes, and writing the same byte twice changes nothing more. */
  lemma CommandRoundTrip(b: bv8, dr: bv32)
    requires b == LED_OFF || b == LED_ON
    ensures StateOf(Command(b, dr).value) == b
    ensures Command(b, Command(b, dr).value) == Command(b, dr)
  {
  }

  /** An `__iomem` handle: NULL, a live mapping, or a pointer left behind by
      iounmap without being reset to NULL. */
  datatype Handle = Null | Live | Stale

  /** Open maps the five windows and release unmaps them in the same order
      they were mapped: every window is unmapped exactly once per mapping. */
  lemma MapThenUnmapBalances(r: Reg)
    ensures Count(Acquires(WindowsOf(Windows)) + Releases(WindowsOf(Windows)), Acquired(Window(r))) == 1
    ensures Count(Acquires(WindowsOf(Windows)) + Releases(WindowsOf(Windows)), Released(Window(r))) == 1
  {
    var ws := WindowsOf(Windows);
    CountAppend(Acquires(ws), Releases(ws), Acquired(Window(r)));
    CountAppend(Acquires(ws), Releases(ws), Released(Window(r)));
    AcquiresOnly(ws, Window(r));
    ReleasesCount(ws, Window(r));
    NoAcquiresInReleases(ws, Window(r));
    WindowOccursOnce(r);
  }

  /** The unmaps do not run in reverse: the first one finds the clock gate
      window under the four mapped after it, so the log is not nested. */
  lemma MapThenUnmapNotNested()
    ensures !Nested(Acquires(WindowsOf(Windows)) + Releases(WindowsOf(Windows)))
  {
    var ws := WindowsOf(Windows);
    ReplayAcquires([], ws);
    assert [] + ws == ws;
    ReplayAppend([], Acquires(ws), Releases(ws));
    assert Releases(ws)[0] == Released(Window(Ccgr1));
    assert ws[|ws| - 1] == Window(Gdir);
    assert Replay(ws, Releases(ws)) == None;
  }

  /** Each register has exactly one window. */
  lemma WindowOccursOnce(r: Reg)
    ensures Occurrences(WindowsOf(Windows), Window(r)) == 1
  {
    var ws := WindowsOf(Windows);
    var i := match r
      case Ccgr1 => 0 case Mux => 1 case Pad => 2 case Dr => 3 case Gdir => 4;
    assert Windows[i] == r;
    forall j | 0 <= j < |ws| && j != i
      ensures ws[j] != Window(r)
    {
      assert ws[j] == Window(Windows[j]);
    }
    assert ws == ws[..i] + [Window(r)] + ws[i + 1..];
    OccurrencesAbsent(ws[..i], Window(r));
    OccurrencesAbsent(ws[i + 1..], Window(r));
    OccurrencesAppend(ws[..i] + [Window(r)], ws[i + 1..], Window(r));
    OccurrencesAppend(ws[..i], [Window(r)], Window(r));
    assert Occurrences([Window(r)], Window(r)) == 1 by { assert [Window(r)][1..] == []; }
  }

  /** The five registers and the driver's five handles onto them. */
  class Bank {
    var ccgr1: bv32
    var mux: bv32
    var pad: bv32
    var dr: bv32
    var gdir: bv32
    var hCcgr1: Handle
    var hMux: Handle
    var hPad: Handle
    var hDr: Handle
    var hGdir: Handle

    /** The content of register `r`. */
    function Word(r: Reg): bv32
      reads this
    {
      match r
      case Ccgr1 => ccgr1
      case Mux => mux
      case Pad => pad
      case Dr => dr
      case Gdir => gdir
    }

    /** The handle onto register `r`. */
    function HandleOf(r: Reg): Handle
      reads this
    {
      match r
      case Ccgr1 => hCcgr1
      case Mux => hMux
      case Pad => hPad
      case Dr => hDr
      case Gdir => hGdir
    }

    predicate AllLive()
      reads this
    {
      hCcgr1 == Live && hMux == Live && hPad == Live && hDr == Live && hGdir == Live
    }

    /** The registers hold whatever the hardware holds; the handles start NULL. */
    constructor (ccgr1: bv32, mux: bv32, pad: bv32, dr: bv32, gdir: bv32)
      ensures this.ccgr1 == ccgr1 && this.mux == mux && this.pad == pad
      ensures this.dr == dr && this.gdir == gdir
      ensures hCcgr1 == Null && hMux == Null && hPad == Null && hDr == Null && hGdir == Null
    {
      this.ccgr1, this.mux, this.pad, this.dr, this.gdir := ccgr1, mux, pad, dr, gdir;
      hCcgr1, hMux, hPad, hDr, hGdir := Null, Null, Null, Null, Null;
    }

    /** Sets the handle onto `r` and no other. */
    method SetHandle(r: Reg, h: Handle)
      modifies this
      ensures hCcgr1 == (if r == Ccgr1 then h else old(hCcgr1))
      ensures hMux == (if r == Mux then h else old(hMux))
      ensures hPad == (if r == Pad then h else old(hPad))
      ensures hDr == (if r == Dr then h else old(hDr))
      ensures hGdir == (if r == Gdir then h else old(hGdir))
      ensures ccgr1 == old(ccgr1) && mux == old(mux) && pad == old(pad)
      ensures dr == old(dr) && gdir == old(gdir)
    {
      match r
      case Ccgr1 => hCcgr1 := h;
      case Mux => hMux := h;
      case Pad => hPad := h;
      case Dr => hDr := h;
      case Gdir => hGdir := h;
    }

    /** ioremap / of_iomap of window `r`: the handle becomes a live mapping. */
    method Map(r: Reg)
      modifies this
      ensures hCcgr1 == (if r == Ccgr1 then Live else old(hCcgr1))
      ensures hMux == (if r == Mux then Live else old(hMux))
      ensures hPad == (if r == Pad then Live else old(hPad))
      ensures hDr == (if r == Dr then Live else old(hDr))
      ensures hGdir == (if r == Gdir then Live else old(hGdir))
      ensures ccgr1 == old(ccgr1) && mux == old(mux) && pad == old(pad)
      ensures dr == old(dr) && gdir == old(gdir)
    {
      SetHandle(r, Live);
    }

    /** iounmap of window `r`: the mapping goes, the pointer stays behind
        (iounmap of NULL does nothing). */
    method Unmap(r: Reg)
      modifies this
      ensures var h := if old(HandleOf(r)) == Null then Null else Stale;
        hCcgr1 == (if r == Ccgr1 then h else old(hCcgr1)) &&
        hMux == (if r == Mux then h else old(hMux)) &&
        hPad == (if r == Pad then h else old(hPad)) &&
        hDr == (if r == Dr then h else old(hDr)) &&
        hGdir == (if r == Gdir then h else old(hGdir))
      ensures ccgr1 == old(ccgr1) && mux == old(mux) && pad == old(pad)
      ensures dr == old(dr) && gdir == old(gdir)
    {
      SetHandle(r, if HandleOf(r) == Null then Null else Stale);
    }

    /** readl: only through a live mapping. */
    method Readl(r: Reg) returns (v: bv32)
      requires HandleOf(r) == Live
      ensures v == Word(r)
    {
      match r
      case Ccgr1 => v := ccgr1;
      case Mux => v := mux;
      case Pad => v := pad;
      case Dr => v := dr;
      case Gdir => v := gdir;
    }

    /** writel: only through a live mapping; no other register changes. */
    method Writel(v: bv32, r: Reg)
      requires HandleOf(r) == Live
      modifies this
      ensures hCcgr1 == old(hCcgr1) && hMux == old(hMux) && hPad == old(hPad)
      ensures hDr == old(hDr) && hGdir == old(hGdir)
      ensures ccgr1 == (if r == Ccgr1 then v else old(ccgr1))
      ensures mux == (if r == Mux then v else old(mux))
      ensures pad == (if r == Pad then v else old(pad))
      ensures dr == (if r == Dr then v else old(dr))
      ensures gdir == (if r == Gdir then v else old(gdir))
    {
      match r
      case Ccgr1 => ccgr1 := v;
      case Mux => mux := v;
      case Pad => pad := v;
      case Dr => dr := v;
      case Gdir => gdir := v;
    }

    /** Maps the five windows, in the drivers' order. */
    method MapAll()
      modifies this
      ensures AllLive()
      ensures ccgr1 == old(ccgr1) && mux == old(mux) && pad == old(pad)
      ensures dr == old(dr) && gdir == old(gdir)
    {
      Map(Ccgr1);
      Map(Mux);
      Map(Pad);
      Map(Dr);
      Map(Gdir);
    }

    /** Unmaps the five windows, in the drivers' order. */
    method UnmapAll()
      requires AllLive()
      modifies this
      ensures hCcgr1 == Stale && hMux == Stale && hPad == Stale && hDr == Stale && hGdir == Stale
      ensures ccgr1 == old(ccgr1) && mux == old(mux) && pad == old(pad)
      ensures dr == old(dr) && gdir == old(gdir)
    {
      Unmap(Ccgr1);
      Unmap(Mux);
      Unmap(Pad);
      Unmap(Dr);
      Unmap(Gdir);
    }

    /** The five handles reset to NULL after unmapping. */
    method ClearAll()
      modifies this
      ensures hCcgr1 == Null && hMux == Null && hPad == Null && hDr == Null && hGdir == Null
      ensures ccgr1 == old(ccgr1) && mux == old(mux) && pad == old(pad)
      ensures dr == old(dr) && gdir == old(gdir)
    {
      hCcgr1, hMux, hPad, hDr, hGdir := Null, Null, Null, Null, Null;
    }

    /** The open handlers' pin set-up, one read-modify-write per register:
        GPIO1 clock gate on, pin-mux and pad written verbatim, pin 3 an
        output, and the LED OFF. */
    method ConfigureIo3()
      requires AllLive()
      modifies this
      ensures AllLive()
      ensures ccgr1 == EnableClock(old(ccgr1))
      ensures mux == MUX_GPIO && pad == PAD_CONFIG
      ensures gdir == SetIo3(old(gdir))
      ensures dr == SetIo3(old(dr))
    {
      var val := Readl(Ccgr1);
      val := val & !CG13_MASK;
      val := val | (0x03 << 26);
      Writel(val, Ccgr1);

      Writel(MUX_GPIO, Mux);
      Writel(PAD_CONFIG, Pad);

      val := Readl(Gdir);
      val := val | IO3_BIT;
      Writel(val, Gdir);

      DriveOff();
    }

    /** `val = readl(dr); val |= 1 << 3; writel(val, dr)`: LED OFF. */
    method DriveOff()
      requires hDr == Live
      modifies this
      ensures dr == SetIo3(old(dr))
      ensures ccgr1 == old(ccgr1) && mux == old(mux) && pad == old(pad) && gdir == old(gdir)
      ensures hCcgr1 == old(hCcgr1) && hMux == old(hMux) && hPad == old(hPad)
      ensures hDr == old(hDr) && hGdir == old(hGdir)
    {
      var val := Readl(Dr);
      val := val | IO3_BIT;
      Writel(val, Dr);
    }

    /** `val = readl(dr); val &= ~(1 << 3); writel(val, dr)`: LED ON. */
    method DriveOn()
      requires hDr == Live
      modifies this
      ensures dr == ClearIo3(old(dr))
      ensures ccgr1 == old(ccgr1) && mux == old(mux) && pad == old(pad) && gdir == old(gdir)
      ensures hCcgr1 == old(hCcgr1) && hMux == old(hMux) && hPad == old(hPad)
      ensures hDr == old(hDr) && hGdir == old(hGdir)
    {
      var val := Readl(Dr);
      val := val & !IO3_BIT;
      Writel(val, Dr);
    }
  }
}

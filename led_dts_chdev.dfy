/** led_dts_chdev: the register-mapped LED whose register windows come from
    the device-tree node "/led".  The driver's globals (the info record and
    the five window handles) are the fields of `Driver`. */
module LedDtsChdev {
  import opened Kernel
  import opened Lifecycle
  import opened Gpio1Io3
  import opened InitChains

  /** What the device tree answers to open's three lookups: the node "/led",
      its "status" string, and its "reg" property read as ten `u32` words. */
  datatype DtLookup = DtLookup(nodeFound: bool, statusFound: bool, regFound: bool)

  /** A write whose copy could read nothing still switches the LED off: the
      zero-filled first byte decodes as LED_OFF (the `ret < 0` test cannot
      catch the fault, since the copy result is an unsigned count). */
  lemma FaultedWriteSwitchesOff(user: seq<bv8>, dr: bv32)
    requires |user| >= 1
    ensures Command(CopyFromUser(user, |user|)[0], dr) == Some(SetIo3(dr))
  {
  }

  class Driver {
    const reg: Registration
    var nodeFound: bool
    const bank: Bank
    ghost var log: seq<Event>

    /** The globals start zeroed; `bank` holds the hardware registers. */
    constructor (bank: Bank)
      ensures this.bank == bank
      ensures fresh(reg) && reg.major == 0 && reg.cls == NullPtr && reg.device == NullPtr && reg.log == []
      ensures log == []
    {
      this.bank := bank;
      reg := new Registration();
      nodeFound := false;
      log := [];
    }

    /** led_dst_chdev_open: three device-tree lookups, then all five windows
        mapped and the pin configured, the LED left OFF. */
    method Open(dt: DtLookup) returns (ret: int)
      modifies this, bank
      ensures nodeFound == dt.nodeFound
      ensures ret == 0 <==> dt.nodeFound && dt.statusFound && dt.regFound
      ensures ret != 0 ==>
        ret == -EINVAL && log == old(log) &&
        bank.hCcgr1 == old(bank.hCcgr1) && bank.hMux == old(bank.hMux) && bank.hPad == old(bank.hPad) &&
        bank.hDr == old(bank.hDr) && bank.hGdir == old(bank.hGdir) &&
        bank.ccgr1 == old(bank.ccgr1) && bank.mux == old(bank.mux) && bank.pad == old(bank.pad) &&
        bank.dr == old(bank.dr) && bank.gdir == old(bank.gdir)
      ensures ret == 0 ==>
        bank.AllLive() && log == old(log) + Acquires(WindowsOf(Windows)) &&
        bank.ccgr1 == EnableClock(old(bank.ccgr1)) &&
        bank.mux == MUX_GPIO && bank.pad == PAD_CONFIG &&
        bank.gdir == SetIo3(old(bank.gdir)) &&
        bank.dr == SetIo3(old(bank.dr))
    {
      nodeFound := dt.nodeFound;                   // of_find_node_by_path("/led")
      if !nodeFound {
        return -EINVAL;
      }
      if !dt.statusFound {                         // of_property_read_string(node, "status")
        return -EINVAL;
      }
      if !dt.regFound {                            // of_property_read_u32_array(node, "reg", _, 10)
        return -EINVAL;
      }
      bank.MapAll();                               // of_iomap(node, 0) .. of_iomap(node, 4)
      log := log + Acquires(WindowsOf(Windows));
      bank.ConfigureIo3();
      return 0;
    }

    /** led_dst_chdev_release: LED OFF through the still-live data window,
        then all five windows unmapped; the handles are not reset to NULL. */
    method Release()
      requires bank.AllLive()
      modifies this, bank
      ensures bank.hCcgr1 == Stale && bank.hMux == Stale && bank.hPad == Stale
      ensures bank.hDr == Stale && bank.hGdir == Stale
      ensures bank.dr == SetIo3(old(bank.dr))
      ensures bank.ccgr1 == old(bank.ccgr1) && bank.mux == old(bank.mux)
      ensures bank.pad == old(bank.pad) && bank.gdir == old(bank.gdir)
      ensures log == old(log) + Releases(WindowsOf(Windows))
      ensures nodeFound == old(nodeFound)
    {
      bank.DriveOff();
      bank.UnmapAll();
      log := log + Releases(WindowsOf(Windows));
    }

    /** led_dst_chdev_write: `user` is the caller's buffer of `count` bytes and
        `uncopied` what copy_from_user reports it could not read.  The first
        byte received is decoded; a protocol byte moves DR bit 3 only and the
        handler returns the copy result, anything else returns -EINVAL with
        no register touched. */
    method Write(user: seq<bv8>, uncopied: nat) returns (ret: int)
      requires 1 <= |user| && uncopied <= |user|
      requires bank.hDr == Live
      modifies bank
      ensures bank.hCcgr1 == old(bank.hCcgr1) && bank.hMux == old(bank.hMux) && bank.hPad == old(bank.hPad)
      ensures bank.hDr == old(bank.hDr) && bank.hGdir == old(bank.hGdir)
      ensures bank.ccgr1 == old(bank.ccgr1) && bank.mux == old(bank.mux)
      ensures bank.pad == old(bank.pad) && bank.gdir == old(bank.gdir)
      ensures var cmd := Command(CopyFromUser(user, uncopied)[0], old(bank.dr));
        if cmd.Some? then ret == uncopied && bank.dr == cmd.value
        else ret == -EINVAL && bank.dr == old(bank.dr)
    {
      var data := CopyFromUser(user, uncopied);
      ret := uncopied;
      if data[0] == LED_OFF {
        bank.DriveOff();
      } else if data[0] == LED_ON {
        bank.DriveOn();
      } else {
        return -EINVAL;
      }
      return ret;
    }

    /** led_dst_chdev_read: one byte, LED_ON exactly when DR bit 3 is clear,
        copied out; the handler returns the copy result (0 when the byte got
        through), not a byte count. */
    method Read(uncopied: nat) returns (ret: int, delivered: seq<bv8>)
      requires uncopied <= 1
      requires bank.hDr == Live
      ensures ret == uncopied
      ensures uncopied == 0 ==> delivered == [StateOf(bank.dr)]
      ensures uncopied == 1 ==> delivered == []
      ensures |delivered| == 1 ==> (delivered[0] == LED_ON <==> bank.dr & IO3_BIT == 0)
    {
      var val := bank.Readl(Dr);
      var tmp := [if val & (1 << 3) != 0 then LED_OFF else LED_ON];
      delivered := tmp[..1 - uncopied];
      ret := uncopied;
    }

    /** write(b) then read() reports b, for both protocol bytes. */
    method WriteThenRead(b: bv8) returns (got: seq<bv8>)
      requires b == LED_OFF || b == LED_ON
      requires bank.hDr == Live
      modifies bank
      ensures got == [b]
      ensures bank.dr & !IO3_BIT == old(bank.dr) & !IO3_BIT
      ensures bank.hCcgr1 == old(bank.hCcgr1) && bank.hMux == old(bank.hMux) && bank.hPad == old(bank.hPad)
      ensures bank.hDr == old(bank.hDr) && bank.hGdir == old(bank.hGdir)
      ensures bank.ccgr1 == old(bank.ccgr1) && bank.mux == old(bank.mux)
      ensures bank.pad == old(bank.pad) && bank.gdir == old(bank.gdir)
    {
      assert CopyFromUser([b], 0) == [b];
      var w := Write([b], 0);
      var cmd := Command(b, old(bank.dr));
      assert bank.dr == cmd.value;
      assert StateOf(cmd.value) == b;
      var r;
      r, got := Read(0);
    }

    /** led_dts_chdev_init: number, cdev, class, device; a failure enters the
        fall-through labels at its own step and returns -EINVAL. */
    method Init(o: InitOracle) returns (ret: int)
      modifies reg
      ensures ret == (if o.Reached() == 4 then 0 else -EINVAL)
      ensures reg.log == old(reg.log) + ClassTwiceInit(o)
      ensures old(reg.major) != 0 ==> reg.major == old(reg.major) && reg.dev == DevNum(old(reg.major), old(reg.minor))
      ensures old(reg.major) == 0 && o.regionRet >= 0 ==>
        reg.major == o.allocMajor && reg.dev == DevNum(o.allocMajor, old(reg.minor))
      ensures o.Reached() >= 3 ==> reg.cls == ObjPtr
      ensures o.Reached() == 2 ==> reg.cls == ErrPtr
      ensures o.Reached() == 4 ==> reg.device == ObjPtr
      ensures o.Reached() == 3 ==> reg.device == ErrPtr
    {
      var reached := reg.Register(o);
      if reached < 4 {
        reg.UnwindClassTwice(reached);
        return -EINVAL;
      }
      return 0;
    }

    /** led_dts_chdev_exit: device, class, cdev, number. */
    method Exit()
      modifies reg
      ensures reg.log == old(reg.log) + ExitEvents()
      ensures reg.major == old(reg.major) && reg.minor == old(reg.minor) && reg.dev == old(reg.dev)
      ensures reg.cls == old(reg.cls) && reg.device == old(reg.device)
    {
      reg.Exit();
    }
  }
}

/** led_chdev: the register-mapped LED at fixed physical addresses,
    registered with the old whole-major `register_chrdev` under major 201.
    The five window handles are the fields of `Driver`. */
module LedChdev {
  import opened Kernel
  import opened Lifecycle
  import opened Gpio1Io3

  const LED_CHDEV_MAJOR: int := 201

  /** What init logs: the major when register_chrdev accepted it. */
  function InitEvents(registerRet: int): (log: seq<Event>)
    ensures log == [] <==> registerRet < 0
    ensures registerRet >= 0 ==> Replay([], log) == Some([Major(LED_CHDEV_MAJOR)])
  {
    if registerRet < 0 then []
    else
      var log := [Acquired(Major(LED_CHDEV_MAJOR))];
      assert log[1..] == [] && [] + [Major(LED_CHDEV_MAJOR)] == [Major(LED_CHDEV_MAJOR)];
      log
  }

  /** Init returns -EIO exactly when the major was refused, and a
      successful init followed by exit gives the same major back. */
  lemma InitThenExitNested(registerRet: int)
    ensures registerRet >= 0 ==>
      Nested(InitEvents(registerRet) + [Released(Major(LED_CHDEV_MAJOR))])
    ensures registerRet < 0 ==> InitEvents(registerRet) == []
  {
    if registerRet >= 0 {
      UnwindInReverse([], [Major(LED_CHDEV_MAJOR)]);
      assert Acquires([Major(LED_CHDEV_MAJOR)]) + Releases(Reverse([Major(LED_CHDEV_MAJOR)]))
          == [Acquired(Major(LED_CHDEV_MAJOR)), Released(Major(LED_CHDEV_MAJOR))];
    }
  }

  class Driver {
    const bank: Bank
    ghost var log: seq<Event>

    constructor (bank: Bank)
      ensures this.bank == bank && log == []
    {
      this.bank := bank;
      log := [];
    }

    /** led_chdev_open: the five fixed addresses mapped (ioremap is not
        checked), the pin configured, the LED left OFF; always 0. */
    method Open() returns (ret: int)
      modifies this, bank
      ensures ret == 0
      ensures bank.AllLive() && log == old(log) + Acquires(WindowsOf(Windows))
      ensures bank.ccgr1 == EnableClock(old(bank.ccgr1))
      ensures bank.mux == MUX_GPIO && bank.pad == PAD_CONFIG
      ensures bank.gdir == SetIo3(old(bank.gdir)) && bank.dr == SetIo3(old(bank.dr))
    {
      bank.MapAll();
      log := log + Acquires(WindowsOf(Windows));
      bank.ConfigureIo3();
      return 0;
    }

    /** led_chdec_close: LED OFF, all five windows unmapped and every handle
        reset to NULL. */
    method Close()
      requires bank.AllLive()
      modifies this, bank
      ensures bank.hCcgr1 == Null && bank.hMux == Null && bank.hPad == Null
      ensures bank.hDr == Null && bank.hGdir == Null
      ensures bank.dr == SetIo3(old(bank.dr))
      ensures bank.ccgr1 == old(bank.ccgr1) && bank.mux == old(bank.mux)
      ensures bank.pad == old(bank.pad) && bank.gdir == old(bank.gdir)
      ensures log == old(log) + Releases(WindowsOf(Windows))
    {
      bank.DriveOff();
      bank.UnmapAll();
      log := log + Releases(WindowsOf(Windows));
      bank.ClearAll();
    }

    /** led_chdev_write: 0 sets DR bit 3 (OFF), 1 clears it (ON), anything
        else is -EINVAL with DR untouched.  On success the handler returns
        the copy result, 0 when every byte arrived, not the byte count. */
    method Write(user: seq<bv8>, uncopied: nat) returns (ret: int)
      requires 1 <= |user| && uncopied <= |user|
      requires bank.hDr == Live
      modifies bank
      ensures bank.hCcgr1 == old(bank.hCcgr1) && bank.hMux == old(bank.hMux) && bank.hPad == old(bank.hPad)
      ensures bank.hDr == old(bank.hDr) && bank.hGdir == old(bank.hGdir)
      ensures bank.ccgr1 == old(bank.ccgr1) && bank.mux == old(bank.mux)
      ensures bank.pad == old(bank.pad) && bank.gdir == old(bank.gdir)
      ensures var cmd := Command(CopyFromUser(user, uncopied)[0], old(bank.dr));
        if cmd.Some? then ret == uncopied && bank.dr == cmd.value
        else ret == -EINVAL && bank.dr == old(bank.dr)
    {
      var data := CopyFromUser(user, uncopied);
      ret := uncopied;
      if data[0] == LED_OFF {
        bank.DriveOff();
      } else if data[0] == LED_ON {
        bank.DriveOn();
      } else {
        return -EINVAL;
      }
      return ret;
    }

    /** led_chdev_read: copies nothing; the handler's result is the state,
        1 exactly when DR bit 3 is clear (ON). */
    method Read() returns (ret: int)
      requires bank.hDr == Live
      ensures ret == 0 || ret == 1
      ensures ret == 1 <==> bank.dr & IO3_BIT == 0
      ensures ret == StateOf(bank.dr) as int
    {
      var val := bank.Readl(Dr);
      ret := if val & IO3_BIT != 0 then 0 else 1;
    }

    /** A successful write of a protocol byte reports 0, and the next read
        returns the byte as its result. */
    method WriteThenRead(b: bv8) returns (w: int, r: int)
      requires b == LED_OFF || b == LED_ON
      requires bank.hDr == Live
      modifies bank
      ensures w == 0
      ensures r == b as int
      ensures bank.dr & !IO3_BIT == old(bank.dr) & !IO3_BIT
      ensures bank.hCcgr1 == old(bank.hCcgr1) && bank.hMux == old(bank.hMux) && bank.hPad == old(bank.hPad)
      ensures bank.hDr == old(bank.hDr) && bank.hGdir == old(bank.hGdir)
      ensures bank.ccgr1 == old(bank.ccgr1) && bank.mux == old(bank.mux)
      ensures bank.pad == old(bank.pad) && bank.gdir == old(bank.gdir)
    {
      assert CopyFromUser([b], 0) == [b];
      w := Write([b], 0);
      var cmd := Command(b, old(bank.dr));
      assert bank.dr == cmd.value;
      assert StateOf(cmd.value) == b;
      r := Read();
    }

    /** led_chdev_init: register_chrdev(201); -EIO when it fails. */
    method Init(registerRet: int) returns (ret: int)
      modifies this
      ensures ret == (if registerRet < 0 then -EIO else 0)
      ensures log == old(log) + InitEvents(registerRet)
    {
      ret := registerRet;
      if ret < 0 {
        return -EIO;
      }
      log := log + [Acquired(Major(LED_CHDEV_MAJOR))];
      return 0;
    }

    /** led_chdev_exit: unregister_chrdev(201). */
    method Exit()
      modifies this
      ensures log == old(log) + [Released(Major(LED_CHDEV_MAJOR))]
    {
      log := log + [Released(Major(LED_CHDEV_MAJOR))];
    }
  }
}

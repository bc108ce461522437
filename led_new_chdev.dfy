/** led_new_chdev: the register-mapped LED reached through fixed physical
    addresses, registered with cdev and a class but with no error unwind.
    The global `led_new_chdev_info` and the five window handles are the
    fields of `Driver`. */
module LedNewChdev {
  import opened Kernel
  import opened Lifecycle
  import opened Gpio1Io3

  /** What init acquires: the number and the cdev when their (ignored)
      calls succeed, then the class and the device up to the first failed
      create, where it stops with -1 and releases nothing. */
  function InitEvents(o: InitOracle): (log: seq<Event>)
    ensures forall i :: 0 <= i < |log| ==> log[i].Acquired?
    ensures Acquired(Class) in log <==> o.classOk
    ensures Acquired(Device) in log <==> o.classOk && o.deviceOk
  {
    (if o.regionRet >= 0 then [Acquired(Region)] else []) +
    (if o.cdevRet >= 0 then [Acquired(Cdev)] else []) +
    (if o.classOk then [Acquired(Class)] + (if o.deviceOk then [Acquired(Device)] else []) else [])
  }

  /** Init's result: only the class and the device creates are checked. */
  function InitResult(o: InitOracle): (r: int)
    ensures r == 0 <==> o.classOk && o.deviceOk
    ensures r == 0 || r == -1
  {
    if o.classOk && o.deviceOk then 0 else -1
  }

  /** Exit: cdev_del, unregister_chrdev_region, device_destroy, class_destroy. */
  function ExitEvents(): (es: seq<Event>)
    ensures |es| == |Steps|
    ensures forall i :: 0 <= i < |es| ==> es[i].Released? && es[i].r in Steps
    ensures es != Releases(Reverse(Steps))
  {
    assert Releases(Reverse(Steps))[0] == Released(Device);
    Releases([Cdev, Region, Device, Class])
  }

  /** Init reports success exactly when the class and the device were
      created, whatever the number and cdev calls answered, and it never
      releases anything. */
  lemma InitIgnoresNumberAndCdev(o: InitOracle)
    ensures InitResult(o) == 0 <==> o.classOk && o.deviceOk
    ensures InitResult(o) != 0 ==> InitResult(o) == -1
    ensures forall r :: Count(InitEvents(o), Released(r)) == 0
  {
    var rs := (if o.regionRet >= 0 then [Region] else []) + (if o.cdevRet >= 0 then [Cdev] else []) +
      (if o.classOk then [Class] + (if o.deviceOk then [Device] else []) else []);
    assert InitEvents(o) == Acquires(rs);
    forall r
      ensures Count(InitEvents(o), Released(r)) == 0
    {
      NoReleasesInAcquires(rs, r);
    }
  }

  /** A failed device create leaves the class (and whatever else succeeded)
      held: the log replays, but not back to nothing. */
  lemma DeviceFailureLeaksTheClass(o: InitOracle)
    requires o.classOk && !o.deviceOk
    ensures InitResult(o) == -1
    ensures Count(InitEvents(o), Acquired(Class)) == 1
    ensures Count(InitEvents(o), Released(Class)) == 0
    ensures Replay([], InitEvents(o)).Some? && !Nested(InitEvents(o))
  {
    var held := (if o.regionRet >= 0 then [Region] else []) + (if o.cdevRet >= 0 then [Cdev] else []);
    assert InitEvents(o) == Acquires(held + [Class]);
    AcquiresOnly(held + [Class], Class);
    OccurrencesAbsent(held, Class);
    OccurrencesAppend(held, [Class], Class);
    assert Occurrences([Class], Class) == 1 by { assert [Class][1..] == []; }
  }

  /** Even after a fully successful init, exit does not release in reverse
      order: the number goes while the device and the class still hold it.
      It does release the same four resources, each once. */
  lemma ExitNotReverse(o: InitOracle)
    requires o.regionRet >= 0 && o.cdevRet >= 0 && o.classOk && o.deviceOk
    ensures InitEvents(o) == Acquires(Steps)
    ensures multiset(ExitEvents()) == multiset(Releases(Steps))
    ensures ExitEvents() != Releases(Reverse(Steps))
    ensures !Nested(InitEvents(o) + ExitEvents())
  {
    assert InitEvents(o) == Acquires(Steps);
    ExitReleasesTheSteps();
    ExitAfterFullInit();
  }

  /** Replaying the full chain and then exit fails at exit's first release:
      the cdev is not on top of the stack, the device is. */
  lemma ExitAfterFullInit()
    ensures !Nested(Acquires(Steps) + ExitEvents())
  {
    var exit := ExitEvents();
    ReplayAcquires([], Steps);
    assert [] + Steps == Steps;
    ReplayAppend([], Acquires(Steps), exit);
    assert exit[0] == Released(Cdev);
    assert Steps[|Steps| - 1] == Device;
    assert Replay(Steps, exit) == None;
  }

  /** Exit's four releases are the four steps, each once. */
  lemma ExitReleasesTheSteps()
    ensures multiset(ExitEvents()) == multiset(Releases(Steps))
  {
    var a, b, c, d := Released(Region), Released(Cdev), Released(Class), Released(Device);
    assert ExitEvents() == [b, a] + [d, c];
    assert Releases(Steps) == [a, b] + [c, d];
    SwapPair(a, b);
    SwapPair(c, d);
  }

  /** Swapping two adjacent events keeps the multiset. */
  lemma SwapPair(x: Event, y: Event)
    ensures multiset([y, x]) == multiset([x, y])
  {
    assert multiset([y, x]) == multiset{y, x};
  }

  class Driver {
    var major: int
    var minor: int
    var dev: DevNum
    var cls: Ptr
    var device: Ptr
    const bank: Bank
    ghost var log: seq<Event>

    /** The globals start zeroed; `bank` holds the hardware registers. */
    constructor (bank: Bank)
      ensures this.bank == bank
      ensures major == 0 && minor == 0 && dev == DevNum(0, 0)
      ensures cls == NullPtr && device == NullPtr && log == []
    {
      this.bank := bank;
      major, minor, dev := 0, 0, DevNum(0, 0);
      cls, device := NullPtr, NullPtr;
      log := [];
    }

    /** led_new_chdev_open: the five fixed addresses mapped (ioremap is not
        checked), the pin configured, the LED left OFF; always 0. */
    method Open() returns (ret: int)
      modifies this, bank
      ensures ret == 0
      ensures bank.AllLive() && log == old(log) + Acquires(WindowsOf(Windows))
      ensures bank.ccgr1 == EnableClock(old(bank.ccgr1))
      ensures bank.mux == MUX_GPIO && bank.pad == PAD_CONFIG
      ensures bank.gdir == SetIo3(old(bank.gdir)) && bank.dr == SetIo3(old(bank.dr))
      ensures major == old(major) && minor == old(minor) && dev == old(dev)
      ensures cls == old(cls) && device == old(device)
    {
      bank.MapAll();
      log := log + Acquires(WindowsOf(Windows));
      bank.ConfigureIo3();
      return 0;
    }

    /** led_new_chdec_close: LED OFF, all five windows unmapped and every
        handle reset to NULL. */
    method Close()
      requires bank.AllLive()
      modifies this, bank
      ensures bank.hCcgr1 == Null && bank.hMux == Null && bank.hPad == Null
      ensures bank.hDr == Null && bank.hGdir == Null
      ensures bank.dr == SetIo3(old(bank.dr))
      ensures bank.ccgr1 == old(bank.ccgr1) && bank.mux == old(bank.mux)
      ensures bank.pad == old(bank.pad) && bank.gdir == old(bank.gdir)
      ensures log == old(log) + Releases(WindowsOf(Windows))
      ensures major == old(major) && minor == old(minor) && dev == old(dev)
      ensures cls == old(cls) && device == old(device)
    {
      bank.DriveOff();
      bank.UnmapAll();
      log := log + Releases(WindowsOf(Windows));
      bank.ClearAll();
    }

    /** led_new_chdev_write: as led_dts_chdev's write; the handler returns
        the copy result on success. */
    method Write(user: seq<bv8>, uncopied: nat) returns (ret: int)
      requires 1 <= |user| && uncopied <= |user|
      requires bank.hDr == Live
      modifies bank
      ensures bank.hCcgr1 == old(bank.hCcgr1) && bank.hMux == old(bank.hMux) && bank.hPad == old(bank.hPad)
      ensures bank.hDr == old(bank.hDr) && bank.hGdir == old(bank.hGdir)
      ensures bank.ccgr1 == old(bank.ccgr1) && bank.mux == old(bank.mux)
      ensures bank.pad == old(bank.pad) && bank.gdir == old(bank.gdir)
      ensures var cmd := Command(CopyFromUser(user, uncopied)[0], old(bank.dr));
        if cmd.Some? then ret == uncopied && bank.dr == cmd.value
        else ret == -EINVAL && bank.dr == old(bank.dr)
    {
      var data := CopyFromUser(user, uncopied);
      ret := uncopied;
      if data[0] == LED_OFF {
        bank.DriveOff();
      } else if data[0] == LED_ON {
        bank.DriveOn();
      } else {
        return -EINVAL;
      }
      return ret;
    }

    /** led_new_chdev_read: one byte, LED_ON exactly when DR bit 3 is
        clear, copied out; the handler returns the copy result. */
    method Read(uncopied: nat) returns (ret: int, delivered: seq<bv8>)
      requires uncopied <= 1
      requires bank.hDr == Live
      ensures ret == uncopied
      ensures delivered == [StateOf(bank.dr)][..1 - uncopied]
      ensures |delivered| == 1 ==> (delivered[0] == LED_ON <==> bank.dr & IO3_BIT == 0)
    {
      var val := bank.Readl(Dr);
      var tmp := [if val & IO3_BIT != 0 then LED_OFF else LED_ON];
      delivered := tmp[..1 - uncopied];
      ret := uncopied;
    }

    /** led_new_chdev_init: the number and cdev results are ignored; a
        failed class or device create returns -1 at once. */
    method Init(o: InitOracle) returns (ret: int)
      modifies this
      ensures ret == InitResult(o)
      ensures log == old(log) + InitEvents(o)
      ensures old(major) != 0 ==> major == old(major) && dev == DevNum(old(major), 0)
      ensures old(major) == 0 && o.regionRet >= 0 ==> major == o.allocMajor && dev == DevNum(o.allocMajor, 0)
      ensures cls == (if o.classOk then ObjPtr else ErrPtr)
      ensures device == (if !o.classOk then old(device) else if o.deviceOk then ObjPtr else ErrPtr)
    {
      RegisterNumber(o);
      if o.cdevRet >= 0 {                           // cdev_add, result ignored
        log := log + [Acquired(Cdev)];
      }
      cls := if o.classOk then ObjPtr else ErrPtr;  // class_create
      if cls == ErrPtr {
        return -1;
      }
      log := log + [Acquired(Class)];
      device := if o.deviceOk then ObjPtr else ErrPtr; // device_create
      if device == ErrPtr {
        return -1;
      }
      log := log + [Acquired(Device)];
      return 0;
    }

    /** The number step of init: register_chrdev_region of MKDEV(major, 0)
        when a major is set, alloc_chrdev_region otherwise; either result is
        ignored. */
    method RegisterNumber(o: InitOracle)
      modifies this
      ensures log == old(log) + (if o.regionRet >= 0 then [Acquired(Region)] else [])
      ensures old(major) != 0 ==> major == old(major) && dev == DevNum(old(major), 0)
      ensures old(major) == 0 && o.regionRet >= 0 ==> major == o.allocMajor && dev == DevNum(o.allocMajor, 0)
      ensures cls == old(cls) && device == old(device)
    {
      if major != 0 {
        dev := DevNum(major, 0);
        if o.regionRet >= 0 {                       // register_chrdev_region, result ignored
          log := log + [Acquired(Region)];
        }
      } else {
        if o.regionRet >= 0 {                       // alloc_chrdev_region, result ignored
          dev := DevNum(o.allocMajor, 0);
          log := log + [Acquired(Region)];
        }
        major, minor := dev.major, dev.minor;
      }
    }

    /** led_new_chdev_exit: cdev, number, device, class. */
    method Exit()
      modifies this
      ensures log == old(log) + ExitEvents()
      ensures major == old(major) && minor == old(minor) && dev == old(dev)
      ensures cls == old(cls) && device == old(device)
    {
      log := log + [Released(Cdev), Released(Region), Released(Device), Released(Class)];
    }
  }
}

/** The goto-unwind chains of the module inits that go number, cdev, class,
    device and fall through their error labels in order.  Two label layouts
    occur: led_dts_chdev and beep_gpio_chdev destroy the class under
    DEVICE_CREATE_ERRO and again under CLASS_INIT_ERRO; led_gpio_chdev
    destroys the device under DEVICE_CREATE_ERRO instead.  All three exit
    handlers release device, class, cdev and number. */
module InitChains {
  import opened Kernel
  import opened Lifecycle

  /** Exit: device_destroy, class_destroy, cdev_del, unregister_chrdev_region,
      the reverse of the order init acquires them in. */
  function ExitEvents(): (es: seq<Event>)
    ensures es == Releases(Reverse(Steps))
  {
    assert Reverse(Steps) == [Device, Class, Cdev, Region];
    Releases([Device, Class, Cdev, Region])
  }

  /** A successful init followed by exit releases everything it acquired, in
      exactly the reverse order, for every one of the three drivers. */
  lemma FullChainThenExitNested()
    ensures ChainEvents(4, []) == Acquires(Steps)
    ensures Nested(ChainEvents(4, []) + ExitEvents())
  {
    StepsAcquired();
    assert Steps[..4] == Steps;
    UnwindInReverse([], Steps);
  }

  /** What the labels of led_dts_chdev_init and beep_gpio_chdev_init release
      when step `k` (0 = number, 1 = cdev, 2 = class, 3 = device) failed. */
  function ClassTwiceUnwind(k: nat): (rs: seq<Resource>)
    requires k < 4
    ensures rs == [] <==> k == 0
    ensures k >= 1 ==> rs[|rs| - 1] == Region
    ensures Class in rs <==> k >= 2
    ensures Device !in rs
  {
    if k == 0 then []                              // REGION_DEV_ERRO
    else if k == 1 then [Region]                   // CDEV_INIT_ERRO
    else if k == 2 then [Cdev, Class, Region]      // CLASS_INIT_ERRO
    else [Class, Cdev, Class, Region]              // DEVICE_CREATE_ERRO
  }

  /** The acquisitions and releases of one such init: the steps reached,
      in order, come first, and a fully successful init releases nothing. */
  function ClassTwiceInit(o: InitOracle): (log: seq<Event>)
    ensures |log| >= o.Reached() && log[..o.Reached()] == Acquires(Steps[..o.Reached()])
    ensures o.Reached() == 4 ==> log == Acquires(Steps)
    ensures o.Reached() == 0 ==> log == []
  {
    var k := o.Reached();
    var acq := Acquires(Steps[..k]);
    var rel := Releases(if k == 4 then [] else ClassTwiceUnwind(k));
    assert (acq + rel)[..k] == acq;
    assert Steps[..4] == Steps;
    ChainEvents(k, if k == 4 then [] else ClassTwiceUnwind(k))
  }

  /** The events of each outcome, spelled out label by label. */
  lemma ClassTwiceByOutcome(o: InitOracle)
    ensures o.Reached() == 0 ==> ClassTwiceInit(o) == []
    ensures o.Reached() == 1 ==> ClassTwiceInit(o) == [Acquired(Region), Released(Region)]
    ensures o.Reached() == 2 ==>
      ClassTwiceInit(o) == [Acquired(Region), Acquired(Cdev), Released(Cdev), Released(Class), Released(Region)]
    ensures o.Reached() == 3 ==>
      ClassTwiceInit(o) == [Acquired(Region), Acquired(Cdev), Acquired(Class),
                            Released(Class), Released(Cdev), Released(Class), Released(Region)]
    ensures o.Reached() == 4 ==>
      ClassTwiceInit(o) == [Acquired(Region), Acquired(Cdev), Acquired(Class), Acquired(Device)]
  {
    StepsAcquired();
  }

  /** The unwind is the exact reverse of what was acquired only when the
      number or the cdev step failed. */
  lemma ClassTwiceReversesOnlyEarlyFailures(k: nat)
    requires k < 4
    ensures ClassTwiceUnwind(k) == Reverse(Steps[..k]) <==> k <= 1
  {
    if k == 2 { assert Reverse(Steps[..k]) == [Cdev, Region]; }
    if k == 3 { assert Reverse(Steps[..k]) == [Class, Cdev, Region]; }
  }

  /** When cdev_add fails, only the number is released. */
  lemma CdevFailureReleasesOnlyTheNumber(o: InitOracle)
    requires o.Reached() == 1
    ensures ClassTwiceInit(o) == [Acquired(Region), Released(Region)]
    ensures Nested(ClassTwiceInit(o))
  {
    ClassTwiceByOutcome(o);
    var log := [Acquired(Region), Released(Region)];
    assert ClassTwiceInit(o) == log;
    assert Replay([], log) == Some([]);
  }

  /** When class_create fails, class_destroy still runs, on the ERR_PTR:
      the unwind calls the release of a class it never created.  The log
      records the call; class_destroy itself returns at once on an ERR_PTR,
      so the call is harmless. */
  lemma ClassFailureDestroysUncreatedClass(o: InitOracle)
    requires o.Reached() == 2
    ensures Count(ClassTwiceInit(o), Acquired(Class)) == 0
    ensures Count(ClassTwiceInit(o), Released(Class)) == 1
    ensures !Nested(ClassTwiceInit(o))
  {
    ClassTwiceByOutcome(o);
    var log := [Acquired(Region), Acquired(Cdev), Released(Cdev), Released(Class), Released(Region)];
    assert ClassTwiceInit(o) == log;
    assert Count(log, Acquired(Class)) == 0;
    assert Count(log, Released(Class)) == 1;
    assert Replay([], log) == None;
  }

  /** When device_create fails, the class is destroyed twice. */
  lemma DeviceFailureDestroysClassTwice(o: InitOracle)
    requires o.Reached() == 3
    ensures Count(ClassTwiceInit(o), Acquired(Class)) == 1
    ensures Count(ClassTwiceInit(o), Released(Class)) == 2
    ensures !Nested(ClassTwiceInit(o))
  {
    ClassTwiceByOutcome(o);
    var log := [Acquired(Region), Acquired(Cdev), Acquired(Class),
                Released(Class), Released(Cdev), Released(Class), Released(Region)];
    assert ClassTwiceInit(o) == log;
    assert Count(log, Acquired(Class)) == 1;
    assert Count(log, Released(Class)) == 2;
    assert Replay([], log) == None;
  }

  /** What the labels of led_gpio_chdev_init release when step `k` failed. */
  function DeviceFirstUnwind(k: nat): (rs: seq<Resource>)
    requires k < 4
    ensures rs == [] <==> k == 0
    ensures k >= 1 ==> rs[|rs| - 1] == Region
    ensures Class in rs <==> k >= 2
    ensures Device in rs <==> k == 3
  {
    if k == 0 then []                              // REGION_DEV_ERRO
    else if k == 1 then [Region]                   // CDEV_INIT_ERRO
    else if k == 2 then [Cdev, Class, Region]      // CLASS_INIT_ERRO
    else [Device, Cdev, Class, Region]             // DEVICE_CREATE_ERRO
  }

  /** The acquisitions and releases of one led_gpio_chdev init. */
  function DeviceFirstInit(o: InitOracle): (log: seq<Event>)
    ensures |log| >= o.Reached() && log[..o.Reached()] == Acquires(Steps[..o.Reached()])
    ensures o.Reached() == 4 ==> log == Acquires(Steps)
    ensures o.Reached() == 0 ==> log == []
  {
    var k := o.Reached();
    var acq := Acquires(Steps[..k]);
    var rel := Releases(if k == 4 then [] else DeviceFirstUnwind(k));
    assert (acq + rel)[..k] == acq;
    assert Steps[..4] == Steps;
    ChainEvents(k, if k == 4 then [] else DeviceFirstUnwind(k))
  }

  lemma DeviceFirstByOutcome(o: InitOracle)
    ensures o.Reached() == 0 ==> DeviceFirstInit(o) == []
    ensures o.Reached() == 1 ==> DeviceFirstInit(o) == [Acquired(Region), Released(Region)]
    ensures o.Reached() == 2 ==>
      DeviceFirstInit(o) == [Acquired(Region), Acquired(Cdev), Released(Cdev), Released(Class), Released(Region)]
    ensures o.Reached() == 3 ==>
      DeviceFirstInit(o) == [Acquired(Region), Acquired(Cdev), Acquired(Class),
                             Released(Device), Released(Cdev), Released(Class), Released(Region)]
    ensures o.Reached() == 4 ==>
      DeviceFirstInit(o) == [Acquired(Region), Acquired(Cdev), Acquired(Class), Acquired(Device)]
  {
    StepsAcquired();
  }

  /** The two layouts differ only when device_create fails. */
  lemma LayoutsDifferOnlyOnDeviceFailure(o: InitOracle)
    ensures ClassTwiceInit(o) == DeviceFirstInit(o) <==> o.Reached() != 3
  {
    ClassTwiceByOutcome(o);
    DeviceFirstByOutcome(o);
    if o.Reached() == 3 {
      assert ClassTwiceInit(o)[3] != DeviceFirstInit(o)[3];
    }
  }

  /** When device_create fails, led_gpio_chdev calls device_destroy for the
      device it never created, then deletes the cdev before destroying the
      class, each exactly once; the log of calls is therefore not nested.
      device_destroy finds no device under that number, so the extra call
      has no effect. */
  lemma DeviceFailureDestroysUncreatedDevice(o: InitOracle)
    requires o.Reached() == 3
    ensures DeviceFirstInit(o)[3..] == Releases([Device, Cdev, Class, Region])
    ensures Count(DeviceFirstInit(o), Acquired(Device)) == 0
    ensures Count(DeviceFirstInit(o), Released(Device)) == 1
    ensures Count(DeviceFirstInit(o), Released(Class)) == 1
    ensures !Nested(DeviceFirstInit(o))
  {
    DeviceFirstByOutcome(o);
    var log := [Acquired(Region), Acquired(Cdev), Acquired(Class),
                Released(Device), Released(Cdev), Released(Class), Released(Region)];
    assert DeviceFirstInit(o) == log;
    assert Count(log, Acquired(Device)) == 0;
    assert Count(log, Released(Device)) == 1;
    assert Count(log, Released(Class)) == 1;
    assert Replay([], log) == None;
  }

  /** The registration half of a driver's global info record: the device
      number, class and device pointers, and the log of what was acquired
      and released. */
  class Registration {
    var major: int
    var minor: int
    var dev: DevNum
    var cls: Ptr
    var device: Ptr
    ghost var log: seq<Event>

    /** A zeroed static record. */
    constructor ()
      ensures major == 0 && minor == 0 && dev == DevNum(0, 0)
      ensures cls == NullPtr && device == NullPtr && log == []
    {
      major, minor, dev := 0, 0, DevNum(0, 0);
      cls, device := NullPtr, NullPtr;
      log := [];
    }

    /** The four steps up to the first failure; `reached` is how many
        succeeded, and each success is logged as an acquisition. */
    method Register(o: InitOracle) returns (reached: nat)
      modifies this
      ensures reached == o.Reached()
      ensures log == old(log) + Acquires(Steps[..reached])
      ensures old(major) != 0 ==> major == old(major) && minor == old(minor) && dev == DevNum(old(major), old(minor))
      ensures old(major) == 0 && o.regionRet >= 0 ==>
        major == o.allocMajor && minor == old(minor) && dev == DevNum(o.allocMajor, old(minor))
      ensures old(major) == 0 && o.regionRet < 0 ==> major == 0 && minor == old(minor) && dev == old(dev)
      ensures cls == (if reached >= 2 then (if o.classOk then ObjPtr else ErrPtr) else old(cls))
      ensures device == (if reached >= 3 then (if o.deviceOk then ObjPtr else ErrPtr) else old(device))
    {
      StepsAcquired();
      var ret;
      if major != 0 {
        dev := DevNum(major, minor);
        ret := o.regionRet;                         // register_chrdev_region
        if ret < 0 {
          return 0;
        }
      } else {
        ret := o.regionRet;                         // alloc_chrdev_region
        if ret < 0 {
          return 0;
        }
        dev := DevNum(o.allocMajor, minor);
        major, minor := dev.major, dev.minor;
      }
      log := log + [Acquired(Region)];

      ret := o.cdevRet;                             // cdev_add
      if ret < 0 {
        return 1;
      }
      log := log + [Acquired(Cdev)];

      cls := if o.classOk then ObjPtr else ErrPtr;  // class_create
      if cls == ErrPtr {
        return 2;
      }
      log := log + [Acquired(Class)];

      device := if o.deviceOk then ObjPtr else ErrPtr; // device_create
      if device == ErrPtr {
        return 3;
      }
      log := log + [Acquired(Device)];
      return 4;
    }

    /** The fall-through labels of led_dts_chdev_init and
        beep_gpio_chdev_init, entered at the label of step `failed`. */
    method UnwindClassTwice(failed: nat)
      requires failed < 4
      modifies this
      ensures log == old(log) + Releases(ClassTwiceUnwind(failed))
      ensures major == old(major) && minor == old(minor) && dev == old(dev)
      ensures cls == old(cls) && device == old(device)
    {
      if failed == 3 {                              // DEVICE_CREATE_ERRO
        log := log + [Released(Class)];
      }
      if failed >= 2 {                              // CLASS_INIT_ERRO
        log := log + [Released(Cdev), Released(Class)];
      }
      if failed >= 1 {                              // CDEV_INIT_ERRO
        log := log + [Released(Region)];
      }
    }

    /** The fall-through labels of led_gpio_chdev_init. */
    method UnwindDeviceFirst(failed: nat)
      requires failed < 4
      modifies this
      ensures log == old(log) + Releases(DeviceFirstUnwind(failed))
      ensures major == old(major) && minor == old(minor) && dev == old(dev)
      ensures cls == old(cls) && device == old(device)
    {
      if failed == 3 {                              // DEVICE_CREATE_ERRO
        log := log + [Released(Device)];
      }
      if failed >= 2 {                              // CLASS_INIT_ERRO
        log := log + [Released(Cdev), Released(Class)];
      }
      if failed >= 1 {                              // CDEV_INIT_ERRO
        log := log + [Released(Region)];
      }
    }

    /** Exit: device_destroy, class_destroy, cdev_del, unregister_chrdev_region. */
    method Exit()
      modifies this
      ensures log == old(log) + ExitEvents()
      ensures major == old(major) && minor == old(minor) && dev == old(dev)
      ensures cls == old(cls) && device == old(device)
    {
      log := log + [Released(Device), Released(Class), Released(Cdev), Released(Region)];
    }
  }
}

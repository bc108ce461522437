/** led_device: an LED on the GPIO line of the device-tree node compatible
    with "sen,gpio-led", its state kept in a heap context `led_info` that
    init allocates.  Unlike the other GPIO drivers it writes the protocol
    value straight through as the level (LED_ON = 0, LED_OFF = 1) and opens
    the line only once, remembered by `led_gpio_init_flag`. */
module LedDevice {
  import opened Kernel
  import opened Lifecycle
  import opened GpioLine

  const LED_ON: int := 0
  const LED_OFF: int := 1

  /** What init's unwind labels release when step `k` failed: exactly the
      steps before it in reverse, then the context. */
  function Unwind(k: nat): (rs: seq<Resource>)
    requires k < 4
    ensures |rs| == k + 1 && rs[k] == Context
    ensures Context !in rs[..k] && Device !in rs
  {
    if k == 0 then [Context]                           // ALLOC_DEV_ERR
    else if k == 1 then [Region, Context]              // CDEV_INIT_ERR
    else if k == 2 then [Cdev, Region, Context]        // CLASS_CREATE_ERR
    else [Class, Cdev, Region, Context]                // DEVICE_CREATE_ERR
  }

  /** The log of one init: nothing when kzalloc fails, otherwise the context
      followed by the registration chain and its unwind. */
  function InitEvents(allocOk: bool, o: InitOracle): (log: seq<Event>)
    ensures log == [] <==> !allocOk
    ensures allocOk ==> log[0] == Acquired(Context)
    ensures allocOk && o.Reached() < 4 ==> log[|log| - 1] == Released(Context)
  {
    var k := o.Reached();
    if !allocOk then []
    else
      var u := if k == 4 then [] else Unwind(k);
      assert k < 4 ==> Releases(u)[|u| - 1] == Released(Context);
      [Acquired(Context)] + ChainEvents(k, u)
  }

  /** Init's result: -1 when kzalloc fails, 0 on success, and otherwise
      `ret` as the last collaborator left it. */
  function InitResult(allocOk: bool, o: InitOracle): (r: int)
    ensures !allocOk ==> r == -1
    ensures allocOk && o.Reached() < 2 ==> r < 0
    ensures allocOk && o.Reached() >= 2 ==> r >= 0
    ensures allocOk && o.Reached() == 4 ==> r == 0
    ensures allocOk && o.Reached() >= 2 && o.cdevRet <= 0 ==> r == 0
  {
    var k := o.Reached();
    if !allocOk then -1
    else if k == 4 then 0
    else if k == 0 then o.regionRet
    else o.cdevRet
  }

  /** Exit with the line owned: level LED_ON, line freed, then device,
      class, cdev, number and context. */
  function ExitEvents(initFlag: bool): (es: seq<Event>)
    ensures Released(Line) in es <==> initFlag
    ensures |es| > 0 && es[|es| - 1] == Released(Context)
    ensures forall i :: 0 <= i < |es| ==> es[i].Released?
  {
    var rest := Releases([Device, Class, Cdev, Region, Context]);
    assert Released(Line) !in rest by {
      forall i | 0 <= i < |rest| ensures rest[i] != Released(Line) {}
    }
    (if initFlag then [Released(Line)] else []) + rest
  }

  /** The unwind releases exactly what was acquired, in reverse. */
  lemma UnwindIsReverse(k: nat)
    requires k < 4
    ensures Unwind(k) == Reverse(Steps[..k]) + [Context]
  {
    assert Steps[..1] == [Region];
    assert Steps[..2] == [Region, Cdev];
    assert Steps[..3] == [Region, Cdev, Class];
  }

  /** Every failed init releases what it acquired in reverse order and ends
      holding nothing. */
  lemma FailedInitNested(allocOk: bool, o: InitOracle)
    requires !allocOk || o.Reached() < 4
    ensures Nested(InitEvents(allocOk, o))
  {
    if allocOk {
      var k := o.Reached();
      var s := Steps[..k];
      var rs := [Context] + s;
      UnwindIsReverse(k);
      assert Reverse(rs) == Unwind(k);
      assert Acquires(rs) == [Acquired(Context)] + Acquires(s);
      assert InitEvents(allocOk, o) == [Acquired(Context)] + (Acquires(s) + Releases(Unwind(k)));
      assert InitEvents(allocOk, o) == Acquires(rs) + Releases(Reverse(rs));
      UnwindInReverse([], rs);
    }
  }

  /** A failed class or device create frees the context, yet init reports
      the cdev_add result, never negative there; cdev_add returns 0 on
      success, so init returns exactly 0 and the module loads. */
  lemma LateFailureReportsSuccess(o: InitOracle)
    requires o.Reached() == 2 || o.Reached() == 3
    ensures InitResult(true, o) == o.cdevRet && InitResult(true, o) >= 0
    ensures o.cdevRet <= 0 ==> InitResult(true, o) == 0
    ensures Count(InitEvents(true, o), Released(Context)) == 1
    ensures Count(InitEvents(true, o), Acquired(Context)) == 1
  {
    FailedInitNested(true, o);
    NestedBalances(InitEvents(true, o), Context);
    CountAcquiredContextOnce(InitEvents(true, o), o.Reached());
  }

  lemma CountAcquiredContextOnce(log: seq<Event>, k: nat)
    requires 2 <= k <= 3
    requires log == [Acquired(Context)] + ChainEvents(k, Unwind(k))
    ensures Count(log, Acquired(Context)) == 1
  {
    CountAppend([Acquired(Context)], ChainEvents(k, Unwind(k)), Acquired(Context));
    CountAppend(Acquires(Steps[..k]), Releases(Unwind(k)), Acquired(Context));
    AcquiresOnly(Steps[..k], Context);
    OccurrencesAbsent(Steps[..k], Context);
    NoAcquiresInReleases(Unwind(k), Context);
    assert Count([Acquired(Context)], Acquired(Context)) == 1 by {
      assert [Acquired(Context)][1..] == [];
    }
  }

  /** A successful init acquires the context and then the four steps. */
  lemma SuccessfulInitAcquiresAll(o: InitOracle)
    requires o.Reached() == 4
    ensures InitEvents(true, o) == Acquires([Context] + Steps)
  {
    assert Steps[..4] == Steps;
    assert Acquires([Context] + Steps) == [Acquired(Context)] + Acquires(Steps);
  }

  /** A successful init, an open that claimed the line (or none), and exit
      release everything in exactly the reverse order. */
  lemma InitOpenExitNested(o: InitOracle, lineOwned: bool)
    requires o.Reached() == 4
    ensures Nested(InitEvents(true, o) + (if lineOwned then [Acquired(Line)] else []) + ExitEvents(lineOwned))
  {
    var full := [Context] + Steps;
    var init := Acquires(full);
    var exit := Releases(Reverse(full));
    SuccessfulInitAcquiresAll(o);
    assert Reverse(full) == [Device, Class, Cdev, Region, Context];
    if lineOwned {
      LineOwnedNested(full);
      assert ExitEvents(true) == [Released(Line)] + exit;
      assert init + [Acquired(Line)] + ([Released(Line)] + exit) == init + ([Acquired(Line), Released(Line)] + exit);
    } else {
      assert ExitEvents(false) == exit;
      assert init + [] + exit == init + exit;
      UnwindInReverse([], full);
    }
  }

  /** Claiming and releasing the line between acquiring `rs` and releasing
      it in reverse still ends holding nothing. */
  lemma LineOwnedNested(rs: seq<Resource>)
    ensures Nested(Acquires(rs) + ([Acquired(Line), Released(Line)] + Releases(Reverse(rs))))
  {
    var mid := [Acquired(Line), Released(Line)];
    var exit := Releases(Reverse(rs));
    ReplayAcquires([], rs);
    assert [] + rs == rs;
    ReplayAppend([], Acquires(rs), mid + exit);
    LineBracket(rs);
    ReplayAppend(rs, mid, exit);
    ReplayReleasesReverse([], rs);
  }

  /** Claiming the line and giving it back leaves the stack as it was. */
  lemma LineBracket(held: seq<Resource>)
    ensures Replay(held, [Acquired(Line), Released(Line)]) == Some(held)
  {
    assert [Acquired(Line), Released(Line)][1..] == [Released(Line)];
    assert (held + [Line])[..|held + [Line]| - 1] == held;
  }

  /** A one-byte write of 0 or 1 with a zeroed stack drives that level, and
      a read reports it back: write(v); read() gives v. */
  lemma WriteThenReadGivesValue(v: bv8)
    requires v == 0 || v == 1
    ensures PassThroughLevel(FirstWord(CopyFromUser([v], 0), [0, 0, 0, 0])) == Some(v as int)
    ensures LowByte(v as int) == v
  {
    assert CopyFromUser([v], 0) == [v];
    OneByteDecodeWithZeroStack(v);
  }

  /** The heap context `struct led_device_info`; kzalloc leaves it zeroed. */
  class Info {
    var initFlag: bool
    var gpioNum: u32
    var major: int
    var minor: int
    var dev: DevNum
    var cls: Ptr
    var device: Ptr

    constructor ()
      ensures !initFlag && gpioNum == 0 && major == 0 && minor == 0 && dev == DevNum(0, 0)
      ensures cls == NullPtr && device == NullPtr
    {
      initFlag, gpioNum := false, 0;
      major, minor, dev := 0, 0, DevNum(0, 0);
      cls, device := NullPtr, NullPtr;
    }

    /** alloc_chrdev_region, cdev_add, class_create, device_create up to
        the first failure; `ret` is the last result assigned. */
    method Register(o: InitOracle) returns (reached: nat, ret: int)
      modifies this
      ensures reached == o.Reached()
      ensures ret == (if reached == 0 then o.regionRet else o.cdevRet)
      ensures initFlag == old(initFlag) && gpioNum == old(gpioNum)
      ensures reached >= 1 ==> major == o.allocMajor && minor == 0 && dev == DevNum(o.allocMajor, 0)
      ensures reached >= 2 ==> cls == (if o.classOk then ObjPtr else ErrPtr)
      ensures reached >= 3 ==> device == (if o.deviceOk then ObjPtr else ErrPtr)
    {
      ret := o.regionRet;                           // alloc_chrdev_region
      if ret < 0 {
        return 0, ret;
      }
      dev := DevNum(o.allocMajor, 0);
      major, minor := dev.major, dev.minor;
      ret := o.cdevRet;                             // cdev_add
      if ret < 0 {
        return 1, ret;
      }
      cls := if o.classOk then ObjPtr else ErrPtr;  // class_create
      if cls == ErrPtr {
        return 2, ret;
      }
      device := if o.deviceOk then ObjPtr else ErrPtr; // device_create
      if device == ErrPtr {
        return 3, ret;
      }
      return 4, ret;
    }
  }

  class Driver {
    var info: Info?
    const line: Line
    ghost var log: seq<Event>

    /** Before init: `led_info` is NULL. */
    constructor (line: Line)
      ensures this.line == line && info == null && log == []
    {
      this.line := line;
      info := null;
      log := [];
    }

    /** led_device_open: nothing to do once the flag is set; otherwise find
        the node, resolve, request and configure the line at LED_OFF, and
        set the flag only when all of that succeeded.  The `< 0` test of the
        resolved `u32` number can never fire. */
    method Open(lk: GpioLookup) returns (ret: int)
      requires info != null && ValidLookup(lk)
      modifies this, info, line
      ensures info == old(info)
      ensures old(info.initFlag) ==>
        ret == 0 && info.initFlag && info.gpioNum == old(info.gpioNum) && log == old(log) &&
        line.requested == old(line.requested) && line.output == old(line.output) &&
        line.level == old(line.level)
      ensures !old(info.initFlag) ==>
        (ret == 0 <==> lk.nodeFound && !old(line.requested) && lk.requestRet == 0 && lk.directionRet == 0) &&
        (ret == -ENODEV <==> !lk.nodeFound) &&
        (ret == -EACCES <==> lk.nodeFound && (old(line.requested) || lk.requestRet < 0)) &&
        (ret == -EIO <==> lk.nodeFound && !old(line.requested) && lk.requestRet == 0 && lk.directionRet < 0) &&
        info.initFlag == (ret == 0) &&
        (lk.nodeFound ==> info.gpioNum == ToU32(lk.gpioRet))
      ensures !old(info.initFlag) && ret == 0 ==>
        line.requested && line.output && line.level == LED_OFF && log == old(log) + [Acquired(Line)]
      ensures !old(info.initFlag) && ret == -EIO ==>
        !line.requested && line.level == old(line.level) && log == old(log) + [Acquired(Line), Released(Line)]
      ensures !old(info.initFlag) && (ret == -ENODEV || ret == -EACCES) ==>
        line.requested == old(line.requested) && line.level == old(line.level) && log == old(log)
      ensures info.major == old(info.major) && info.dev == old(info.dev)
      ensures info.cls == old(info.cls) && info.device == old(info.device)
    {
      if info.initFlag {
        return 0;
      }
      if !lk.nodeFound {                            // of_find_compatible_node(.., "sen,gpio-led")
        return -ENODEV;
      }
      info.gpioNum := ToU32(lk.gpioRet);            // of_get_named_gpio, then of_node_put
      if info.gpioNum < 0 {
        return -ENODEV;
      }
      ret := line.Request(lk.requestRet);           // gpio_request
      if ret < 0 {
        return -EACCES;
      }
      log := log + [Acquired(Line)];
      ret := line.DirectionOutput(lk.directionRet, LED_OFF);
      if ret < 0 {
        line.Free();
        log := log + [Released(Line)];
        return -EIO;
      }
      info.initFlag := true;
      return 0;
    }

    /** led_device_release: LED_OFF when the flag is set; the line is kept
        and the flag stays set.  Always 0. */
    method Release() returns (ret: int)
      modifies line
      ensures ret == 0
      ensures line.level == (if info != null && info.initFlag then LED_OFF else old(line.level))
      ensures line.requested == old(line.requested) && line.output == old(line.output)
    {
      if info != null && info.initFlag {
        line.SetValue(LED_OFF);
      }
      return 0;
    }

    /** led_device_read: -EINVAL for an empty buffer, -EIO when the level
        cannot be read, otherwise the raw level's low byte is copied out and
        the handler returns 1 even when the copy faulted. */
    method Read(count: nat, getErr: Option<int>, uncopied: nat) returns (ret: int, delivered: seq<bv8>)
      requires info != null
      requires getErr.Some? ==> getErr.value < 0
      requires uncopied <= 1
      ensures var val := if getErr.Some? then getErr.value else line.level;
        if count < 1 then ret == -EINVAL && delivered == []
        else if val < 0 then ret == -EIO && delivered == []
        else ret == 1 && delivered == [LowByte(val)][..1 - uncopied]
    {
      if count < 1 {
        return -EINVAL, [];
      }
      var val := line.GetValue(getErr);
      if val < 0 {
        return -EIO, [];
      }
      var tmp := [LowByte(val)];
      delivered := tmp[..1 - uncopied];
      return 1, delivered;
    }

    /** led_device_write: one byte is copied into a `u32`, whatever `count`
        is; `b` is the byte at the user pointer, `uncopied` what the copy
        could not read and `stale` the word's bytes before the copy.  0 and
        1 are driven as the level and the handler returns 1; anything else
        returns -EINVAL without touching the line. */
    method Write(b: bv8, uncopied: nat, stale: seq<bv8>) returns (ret: int)
      requires info != null
      requires uncopied <= 1 && |stale| == 4
      modifies line
      ensures line.requested == old(line.requested) && line.output == old(line.output)
      ensures var level := PassThroughLevel(FirstWord(CopyFromUser([b], uncopied), stale));
        if level.Some? then ret == 1 && line.level == level.value
        else ret == -EINVAL && line.level == old(line.level)
    {
      var data := CopyFromUser([b], uncopied);
      var val := FirstWord(data, stale);            // val[0]
      if val == LED_ON as bv32 || val == LED_OFF as bv32 {
        line.SetValue(val as int);
      } else {
        return -EINVAL;
      }
      return 1;
    }

    /** A one-byte write of 0 or 1, then a one-byte read: the read reports
        the value written. */
    method WriteThenRead(v: bv8) returns (got: seq<bv8>)
      requires info != null && (v == 0 || v == 1)
      modifies line
      ensures got == [v]
      ensures line.level == v as int
      ensures line.requested == old(line.requested) && line.output == old(line.output)
    {
      WriteThenReadGivesValue(v);
      var w := Write(v, 0, [0, 0, 0, 0]);
      var r;
      r, got := Read(1, None, 0);
    }

    /** led_device_init: kzalloc (NULL gives -1), then the four steps; a
        failure falls through the labels, frees the context and resets
        `led_info` to NULL. */
    method Init(allocOk: bool, o: InitOracle) returns (ret: int)
      modifies this
      ensures ret == InitResult(allocOk, o)
      ensures log == old(log) + InitEvents(allocOk, o)
      ensures info != null <==> allocOk && o.Reached() == 4
      ensures info != null ==>
        fresh(info) && !info.initFlag && info.dev == DevNum(o.allocMajor, 0) &&
        info.cls == ObjPtr && info.device == ObjPtr
    {
      if !allocOk {                                 // kzalloc
        info := null;
        return -1;
      }
      var ctx := new Info();
      info := ctx;
      log := log + [Acquired(Context)];
      ret := RegisterChain(ctx, o);
    }

    /** The four steps on the fresh context; a failure unwinds and resets
        `led_info` to NULL. */
    method RegisterChain(ctx: Info, o: InitOracle) returns (ret: int)
      requires info == ctx
      modifies this, ctx
      ensures ret == InitResult(true, o)
      ensures log == old(log) + ChainEvents(o.Reached(), if o.Reached() == 4 then [] else Unwind(o.Reached()))
      ensures info == (if o.Reached() == 4 then ctx else null)
      ensures ctx.initFlag == old(ctx.initFlag)
      ensures o.Reached() == 4 ==>
        ctx.dev == DevNum(o.allocMajor, 0) && ctx.cls == ObjPtr && ctx.device == ObjPtr
    {
      var reached;
      reached, ret := ctx.Register(o);
      log := log + Acquires(Steps[..reached]);
      if reached == 4 {
        return 0;
      }
      UnwindFrom(reached);
      info := null;
    }

    /** The fall-through labels of led_device_init, entered at the label
        of step `failed`, down to the kfree of the context. */
    method UnwindFrom(failed: nat)
      requires failed < 4
      modifies this
      ensures log == old(log) + Releases(Unwind(failed))
      ensures info == old(info)
    {
      if failed == 3 {                              // DEVICE_CREATE_ERR
        log := log + [Released(Class)];
      }
      if failed >= 2 {                              // CLASS_CREATE_ERR
        log := log + [Released(Cdev)];
      }
      if failed >= 1 {                              // CDEV_INIT_ERR
        log := log + [Released(Region)];
      }
      log := log + [Released(Context)];             // ALLOC_DEV_ERR
    }

    /** led_device_exit: when a context exists, the owned line is driven to
        LED_ON and freed, then device, class, cdev, number and context go. */
    method Exit()
      modifies this, line
      ensures info == null
      ensures old(info) == null ==>
        log == old(log) && line.level == old(line.level) && line.requested == old(line.requested)
      ensures old(info) != null ==> log == old(log) + ExitEvents(old(info.initFlag))
      ensures old(info) != null && old(info.initFlag) ==> line.level == LED_ON && !line.requested
      ensures old(info) != null && !old(info.initFlag) ==>
        line.level == old(line.level) && line.requested == old(line.requested)
    {
      if info != null {
        if info.initFlag {
          line.SetValue(LED_ON);
          line.Free();
          log := log + [Released(Line)];
        }
        log := log + [Released(Device), Released(Class), Released(Cdev), Released(Region), Released(Context)];
        info := null;
      }
    }
  }
}

/** beep_gpio_chdev: an active-low buzzer on the GPIO line named by the
    "led-gpio" property of device-tree node "/gpio_beep".  The fields of the
    global `beep_gpio_chdev_info` are the fields of `Driver`. */
module BeepGpioChdev {
  import opened Kernel
  import opened Lifecycle
  import opened InitChains
  import opened GpioLine

  class Driver {
    const reg: Registration
    var nodeFound: bool
    var gpio: u32
    const line: Line
    ghost var log: seq<Event>

    /** The globals start zeroed; `line` is the buzzer's GPIO line. */
    constructor (line: Line)
      ensures this.line == line
      ensures fresh(reg) && reg.major == 0 && reg.cls == NullPtr && reg.device == NullPtr && reg.log == []
      ensures nodeFound == false && gpio == 0 && log == []
    {
      this.line := line;
      reg := new Registration();
      nodeFound, gpio := false, 0;
      log := [];
    }

    /** beep_gpio_chdev_open: find the node, resolve and request the line,
        make it an output at 1 (buzzer off).  A failed direction frees the
        line again.  The `< 0` test of the resolved number is made on a
        `u32` and its -ENODEV is overwritten by gpio_request's result, so an
        unresolvable reference never yields -ENODEV. */
    method Open(lk: GpioLookup) returns (ret: int)
      requires ValidLookup(lk)
      modifies this, line
      ensures nodeFound == lk.nodeFound
      ensures lk.nodeFound ==> gpio == ToU32(lk.gpioRet)
      ensures !lk.nodeFound ==> gpio == old(gpio)
      ensures ret == -ENODEV <==> !lk.nodeFound
      ensures ret == -EACCES <==> lk.nodeFound && (old(line.requested) || lk.requestRet < 0)
      ensures ret == -EIO <==>
        lk.nodeFound && !old(line.requested) && lk.requestRet == 0 && lk.directionRet < 0
      ensures ret == 0 <==>
        lk.nodeFound && !old(line.requested) && lk.requestRet == 0 && lk.directionRet == 0
      ensures ret == 0 ==>
        line.requested && line.output && line.level == 1 && log == old(log) + [Acquired(Line)]
      ensures ret == -EIO ==>
        !line.requested && line.output == old(line.output) && line.level == old(line.level) &&
        log == old(log) + [Acquired(Line), Released(Line)]
      ensures ret == -ENODEV || ret == -EACCES ==>
        line.requested == old(line.requested) && line.output == old(line.output) &&
        line.level == old(line.level) && log == old(log)
    {
      ret := 0;
      nodeFound := lk.nodeFound;                   // of_find_node_by_path("/gpio_beep")
      if !nodeFound {
        return -ENODEV;
      }
      gpio := ToU32(lk.gpioRet);                   // of_get_named_gpio(node, "led-gpio", 0)
      if gpio < 0 {
        ret := -ENODEV;
      }
      ret := line.Request(lk.requestRet);          // gpio_request
      if ret < 0 {
        return -EACCES;
      }
      log := log + [Acquired(Line)];
      ret := line.DirectionOutput(lk.directionRet, 1);
      if ret < 0 {
        line.Free();
        log := log + [Released(Line)];
        return -EIO;
      }
      return 0;
    }

    /** beep_gpio_chdev_release: level 1 (off), then the line is freed. */
    method Release()
      modifies this, line
      ensures line.level == 1 && !line.requested && line.output == old(line.output)
      ensures log == old(log) + [Released(Line)]
      ensures nodeFound == old(nodeFound) && gpio == old(gpio)
    {
      line.SetValue(1);
      line.Free();
      log := log + [Released(Line)];
    }

    /** beep_gpio_chdev_write: the `count` bytes of `user` are copied into a
        `u32` stack array whose first word is decoded; `uncopied` is what
        copy_from_user could not read and `stale` the first word's bytes
        before the copy.  1 drives level 0 (on), 0 drives level 1 (off),
        and the handler returns the copy result; any other word returns
        -ENOEXEC without touching the line. */
    method Write(user: seq<bv8>, uncopied: nat, stale: seq<bv8>) returns (ret: int)
      requires 1 <= |user| && uncopied <= |user| && |stale| == 4
      modifies line
      ensures line.requested == old(line.requested) && line.output == old(line.output)
      ensures var level := ActiveLowLevel(FirstWord(CopyFromUser(user, uncopied), stale));
        if level.Some? then ret == uncopied && line.level == level.value
        else ret == -ENOEXEC && line.level == old(line.level)
    {
      var data := CopyFromUser(user, uncopied);
      ret := uncopied;
      var word := FirstWord(data, stale);          // data_buf[0]
      if word == 1 {
        line.SetValue(0);
      } else if word == 0 {
        line.SetValue(1);
      } else {
        return -ENOEXEC;
      }
      return ret;
    }

    /** beep_gpio_chdev_read: -EIO when the level cannot be read, otherwise
        the raw level's low byte is copied out, uninverted, and the handler
        returns the copy result. */
    method Read(getErr: Option<int>, uncopied: nat) returns (ret: int, delivered: seq<bv8>)
      requires getErr.Some? ==> getErr.value < 0
      requires uncopied <= 1
      ensures var val := if getErr.Some? then getErr.value else line.level;
        if val < 0 then ret == -EIO && delivered == []
        else ret == uncopied && delivered == [LowByte(val)][..1 - uncopied]
    {
      var val := line.GetValue(getErr);
      if val < 0 {
        return -EIO, [];
      }
      var tmp := [LowByte(val)];
      delivered := tmp[..1 - uncopied];
      ret := uncopied;
    }

    /** A one-byte write of a protocol byte, then a read: the read reports
        the inverse of the byte written. */
    method WriteThenRead(b: bv8) returns (got: seq<bv8>)
      requires b == 0 || b == 1
      modifies line
      ensures got == [1 - b]
      ensures line.level == 1 - b as int
      ensures line.requested == old(line.requested) && line.output == old(line.output)
    {
      WriteThenReadGivesInverse(b);
      var w := Write([b], 0, [0, 0, 0, 0]);
      var r;
      r, got := Read(None, 0);
    }

    /** beep_gpio_chdev_init: number, cdev, class, device; a failure enters the
        fall-through labels at its own step and returns -EINVAL. */
    method Init(o: InitOracle) returns (ret: int)
      modifies reg
      ensures ret == (if o.Reached() == 4 then 0 else -EINVAL)
      ensures reg.log == old(reg.log) + ClassTwiceInit(o)
      ensures old(reg.major) != 0 ==> reg.major == old(reg.major) && reg.dev == DevNum(old(reg.major), old(reg.minor))
      ensures old(reg.major) == 0 && o.regionRet >= 0 ==>
        reg.major == o.allocMajor && reg.dev == DevNum(o.allocMajor, old(reg.minor))
      ensures o.Reached() >= 3 ==> reg.cls == ObjPtr
      ensures o.Reached() == 2 ==> reg.cls == ErrPtr
      ensures o.Reached() == 4 ==> reg.device == ObjPtr
      ensures o.Reached() == 3 ==> reg.device == ErrPtr
    {
      var reached := reg.Register(o);
      if reached < 4 {
        reg.UnwindClassTwice(reached);
        return -EINVAL;
      }
      return 0;
    }

    /** beep_gpio_chdev_exit: device, class, cdev, number. */
    method Exit()
      modifies reg
      ensures reg.log == old(reg.log) + ExitEvents()
      ensures reg.major == old(reg.major) && reg.minor == old(reg.minor) && reg.dev == old(reg.dev)
      ensures reg.cls == old(reg.cls) && reg.device == old(reg.device)
    {
      reg.Exit();
    }
  }
}

/** The GPIO-line backend shared by beep_gpio_chdev, led_gpio_chdev and
    led_device: one line with its ownership flag, its direction and its
    physical level, reached through the legacy integer GPIO calls. */
module GpioLine {
  import opened Kernel

  const EBUSY: int := 16

  newtype u32 = x: int | 0 <= x < 0x1_0000_0000

  /** An `int` stored into a `u32` field: two's-complement wrap-around.  A
      negative error number becomes a large line number, never a negative
      one. */
  function ToU32(v: int): (w: u32)
    ensures 0 <= v < 0x1_0000_0000 ==> w as int == v
    ensures -0x1_0000_0000 <= v < 0 ==> w as int == v + 0x1_0000_0000
  {
    (v % 0x1_0000_0000) as u32
  }

  /** The byte `copy_to_user(buf, &val, 1)` delivers from an `int` on a
      little-endian core: its lowest byte, which for the two levels gpiolib
      reports is the level itself. */
  function LowByte(v: int): (b: bv8)
    ensures v == 0 ==> b == 0
    ensures v == 1 ==> b == 1
  {
    (v % 256) as bv8
  }

  /** The level beep_gpio_chdev and led_gpio_chdev drive for a decoded
      command word (ON = 1 drives 0, OFF = 0 drives 1), or None when the
      word is neither. */
  function ActiveLowLevel(w: bv32): (r: Option<int>)
    ensures r.Some? <==> w == 0 || w == 1
    ensures r.Some? ==> r.value == 1 - w as int
  {
    if w == 1 then Some(0)
    else if w == 0 then Some(1)
    else None
  }

  /** The level led_device drives for a decoded word: 0 and 1 are passed
      through unchanged, anything else is refused. */
  function PassThroughLevel(w: bv32): (r: Option<int>)
    ensures r.Some? <==> w == 0 || w == 1
    ensures r.Some? ==> r.value == w as int
  {
    if w == 0 || w == 1 then Some(w as int) else None
  }

  /** The `u32` decode of a one-byte write: whether the byte is accepted
      depends on the three stack bytes the copy did not reach, so a
      protocol byte is refused whenever one of them is not zero. */
  lemma OneByteDecodeDependsOnStaleBytes(b: bv8, stale: seq<bv8>)
    requires |stale| == 4
    ensures ActiveLowLevel(FirstWord([b], stale)).Some? <==>
      (b == 0 || b == 1) && stale[1] == 0 && stale[2] == 0 && stale[3] == 0
    ensures PassThroughLevel(FirstWord([b], stale)).Some? <==>
      (b == 0 || b == 1) && stale[1] == 0 && stale[2] == 0 && stale[3] == 0
  {
    var w := FirstWord([b], stale);
    assert w == 0 <==> b == 0 && stale[1] == 0 && stale[2] == 0 && stale[3] == 0 by {
      assert forall i :: 0 <= i < 4 ==> (if i < 1 then [b][i] else stale[i]) == (if i == 0 then b else stale[i]);
    }
  }

  /** With the stale bytes zero, a one-byte write decodes as the byte. */
  lemma OneByteDecodeWithZeroStack(b: bv8)
    ensures FirstWord([b], [0, 0, 0, 0]) == b as bv32
  {
    var w := FirstWord([b], [0, 0, 0, 0]);
    assert w == LeWord(b, 0, 0, 0);
  }

  /** What open's collaborators answer: the node lookup, of_get_named_gpio
      (a line number or a negative error), gpio_request and
      gpio_direction_output (0 or a negative error). */
  datatype GpioLookup = GpioLookup(nodeFound: bool, gpioRet: int, requestRet: int, directionRet: int)

  predicate ValidLookup(lk: GpioLookup)
  {
    lk.requestRet <= 0 && lk.directionRet <= 0
  }

  /** In beep_gpio_chdev and led_gpio_chdev, a one-byte write of protocol
      byte `b` (as the buzzer test program sends) with a zeroed stack drives
      the inverse level, and a read then reports that level, not the byte:
      write(b); read() gives 1 - b. */
  lemma WriteThenReadGivesInverse(b: bv8)
    requires b == 0 || b == 1
    ensures ActiveLowLevel(FirstWord(CopyFromUser([b], 0), [0, 0, 0, 0])).Some?
    ensures LowByte(ActiveLowLevel(FirstWord(CopyFromUser([b], 0), [0, 0, 0, 0])).value) == 1 - b
  {
    assert CopyFromUser([b], 0) == [b];
    OneByteDecodeWithZeroStack(b);
  }

  /** A GPIO line: whether this driver owns it, whether it is an output,
      and its physical level. */
  class Line {
    var requested: bool
    var output: bool
    var level: int

    /** gpiolib reports a line's level as 0 or 1. */
    constructor (level: int)
      requires level == 0 || level == 1
      ensures !requested && !output && this.level == level
    {
      requested, output := false, false;
      this.level := level;
    }

    /** gpio_request: `reqRet` is the controller's answer; a line this
        driver already owns is busy. */
    method Request(reqRet: int) returns (ret: int)
      requires reqRet <= 0
      modifies this
      ensures ret == (if old(requested) then -EBUSY else reqRet)
      ensures requested == (old(requested) || ret == 0)
      ensures output == old(output) && level == old(level)
    {
      if requested {
        return -EBUSY;
      }
      ret := reqRet;
      if ret == 0 {
        requested := true;
      }
    }

    /** gpio_direction_output: on success the line is an output at `value`. */
    method DirectionOutput(dirRet: int, value: int) returns (ret: int)
      requires dirRet <= 0
      modifies this
      ensures ret == dirRet
      ensures requested == old(requested)
      ensures output == (old(output) || dirRet == 0)
      ensures level == (if dirRet == 0 then value else old(level))
    {
      ret := dirRet;
      if ret == 0 {
        output, level := true, value;
      }
    }

    /** gpio_set_value. */
    method SetValue(value: int)
      modifies this
      ensures level == value
      ensures requested == old(requested) && output == old(output)
    {
      level := value;
    }

    /** gpio_get_value: the level, or the controller's negative error. */
    method GetValue(getErr: Option<int>) returns (v: int)
      requires getErr.Some? ==> getErr.value < 0
      ensures v == (if getErr.Some? then getErr.value else level)
    {
      v := if getErr.Some? then getErr.value else level;
    }

    /** gpio_free. */
    method Free()
      modifies this
      ensures !requested
      ensures output == old(output) && level == old(level)
    {
      requested := false;
    }
  }
}

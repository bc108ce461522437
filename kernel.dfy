/** Vocabulary the drivers share with the kernel they run in: the error numbers
    they return, the user-copy primitives and the little-endian layout of a
    `u32` on the ARM core the drivers target. */
module Kernel {

  datatype Option<+T> = None | Some(value: T)

  // Error numbers from the generic Linux errno table; handlers return them negated.
  const EIO: int := 5
  const ENOEXEC: int := 8
  const EACCES: int := 13
  const EFAULT: int := 14
  const ENODEV: int := 19
  const EINVAL: int := 22

  /** `n` zero bytes. */
  function Zeros(n: nat): (z: seq<bv8>)
    ensures |z| == n
    ensures forall i :: 0 <= i < n ==> z[i] == 0
  {
    if n == 0 then [] else Zeros(n - 1) + [0]
  }

  /** The contents of an n-byte kernel buffer after `copy_from_user(dst, user, n)`
      could not read the last `uncopied` bytes: the bytes it read, then the
      zero fill copy_from_user applies to the part it could not read.  The
      call's own result is `uncopied`, an unsigned count, never negative. */
  function CopyFromUser(user: seq<bv8>, uncopied: nat): (k: seq<bv8>)
    requires uncopied <= |user|
    ensures |k| == |user|
    ensures forall i :: 0 <= i < |user| - uncopied ==> k[i] == user[i]
    ensures forall i :: |user| - uncopied <= i < |user| ==> k[i] == 0
  {
    user[..|user| - uncopied] + Zeros(uncopied)
  }

  /** The `u32` whose little-endian bytes are b0 (lowest) to b3. */
  function LeWord(b0: bv8, b1: bv8, b2: bv8, b3: bv8): (w: bv32)
    ensures (w & 0xFF) as bv8 == b0
    ensures ((w >> 8) & 0xFF) as bv8 == b1
    ensures ((w >> 16) & 0xFF) as bv8 == b2
    ensures ((w >> 24) & 0xFF) as bv8 == b3
    ensures w == 0 <==> b0 == 0 && b1 == 0 && b2 == 0 && b3 == 0
    ensures w == 1 <==> b0 == 1 && b1 == 0 && b2 == 0 && b3 == 0
  {
    (b0 as bv32) | ((b1 as bv32) << 8) | ((b2 as bv32) << 16) | ((b3 as bv32) << 24)
  }

  /** The first `u32` of a `u32` stack array after `n` bytes were copied into
      it: byte i of the word is the i-th copied byte while i < n and the
      stack's previous, uninitialised content `stale[i]` beyond. */
  function FirstWord(copied: seq<bv8>, stale: seq<bv8>): (w: bv32)
    requires |copied| >= 1 && |stale| == 4
    ensures w == 1 <==>
      copied[0] == 1 &&
      (forall i :: 1 <= i < 4 ==> (if i < |copied| then copied[i] else stale[i]) == 0)
    ensures w == 0 <==>
      forall i :: 0 <= i < 4 ==> (if i < |copied| then copied[i] else stale[i]) == 0
  {
    var b := if |copied| >= 4 then copied[..4] else copied + stale[|copied|..];
    assert forall i :: 0 <= i < 4 ==> b[i] == (if i < |copied| then copied[i] else stale[i]);
    LeWord(b[0], b[1], b[2], b[3])
  }
}

/** chdev: a character device over the static 100-byte buffer
    `chndev_buf`, registered under major 200.  Write copies the caller's
    bytes over the front of the buffer and read copies the front out. */
module Chdev {
  import opened Kernel
  import opened Lifecycle

  const CHDEV_MAJOR: int := 200
  const BUF_SIZE: nat := 100

  /** The string the hello test program writes, with its terminating NUL:
      `sizeof("hello world")` is 12. */
  const Hello: seq<bv8> := [0x68, 0x65, 0x6C, 0x6C, 0x6F, 0x20, 0x77, 0x6F, 0x72, 0x6C, 0x64, 0x00]

  /** The buffer after a write of `user` of which `uncopied` trailing bytes
      could not be read: the copied bytes, the zero fill, then the rest of
      the buffer as it was. */
  function AfterWrite(old_buf: seq<bv8>, user: seq<bv8>, uncopied: nat): (b: seq<bv8>)
    requires |user| <= |old_buf| && uncopied <= |user|
    ensures |b| == |old_buf|
    ensures b[..|user|] == CopyFromUser(user, uncopied)
    ensures b[|user|..] == old_buf[|user|..]
  {
    CopyFromUser(user, uncopied) + old_buf[|user|..]
  }

  /** Reading back as many bytes as a complete write stored yields them. */
  lemma ReadBackWhatWasWritten(old_buf: seq<bv8>, user: seq<bv8>)
    requires |user| <= |old_buf|
    ensures AfterWrite(old_buf, user, 0)[..|user|] == user
  {
    assert CopyFromUser(user, 0) == user;
  }

  /** Writing is idempotent and a second write of a longer string hides
      the first one entirely. */
  lemma WriteOverwrites(old_buf: seq<bv8>, s: seq<bv8>, t: seq<bv8>)
    requires |s| <= |t| <= |old_buf|
    ensures AfterWrite(AfterWrite(old_buf, s, 0), t, 0) == AfterWrite(old_buf, t, 0)
    ensures AfterWrite(AfterWrite(old_buf, s, 0), s, 0) == AfterWrite(old_buf, s, 0)
  {
    assert CopyFromUser(s, 0) == s;
    assert CopyFromUser(t, 0) == t;
    var once := AfterWrite(old_buf, s, 0);
    assert once[|t|..] == old_buf[|t|..];
  }

  /** What init logs: the major when register_chrdev accepted it. */
  function InitEvents(registerRet: int): (log: seq<Event>)
    ensures log == [] <==> registerRet < 0
    ensures registerRet >= 0 ==> Replay([], log) == Some([Major(CHDEV_MAJOR)])
  {
    if registerRet < 0 then []
    else
      var log := [Acquired(Major(CHDEV_MAJOR))];
      assert log[1..] == [] && [] + [Major(CHDEV_MAJOR)] == [Major(CHDEV_MAJOR)];
      log
  }

  /** Init reports success whatever register_chrdev answered, so a refused
      major is still unregistered by exit, never having been acquired. */
  lemma RefusedMajorStillReleased(registerRet: int)
    requires registerRet < 0
    ensures Count(InitEvents(registerRet) + [Released(Major(CHDEV_MAJOR))], Acquired(Major(CHDEV_MAJOR))) == 0
    ensures Count(InitEvents(registerRet) + [Released(Major(CHDEV_MAJOR))], Released(Major(CHDEV_MAJOR))) == 1
    ensures !Nested(InitEvents(registerRet) + [Released(Major(CHDEV_MAJOR))])
  {
    var log := [Released(Major(CHDEV_MAJOR))];
    assert InitEvents(registerRet) + log == log;
    assert log[1..] == [];
  }

  class Driver {
    const buf: array<bv8>
    ghost var log: seq<Event>

    /** `static char chndev_buf[100] = {0}`. */
    constructor ()
      ensures fresh(buf) && buf.Length == BUF_SIZE
      ensures forall i :: 0 <= i < buf.Length ==> buf[i] == 0
      ensures log == []
    {
      buf := new bv8[BUF_SIZE](_ => 0);
      log := [];
    }

    /** chdev_write: copy_from_user into the front of the buffer, the bytes
        it could not read zero-filled; the rest of the buffer is untouched
        and the handler returns `count`, whatever the copy reported. */
    method Write(user: seq<bv8>, uncopied: nat) returns (ret: int)
      requires |user| <= buf.Length && uncopied <= |user|
      modifies buf
      ensures ret == |user|
      ensures buf[..] == AfterWrite(old(buf[..]), user, uncopied)
    {
      var n := |user| - uncopied;
      var i := 0;
      while i < |user|
        invariant 0 <= i <= |user|
        invariant forall j :: 0 <= j < i ==> buf[j] == (if j < n then user[j] else 0)
        invariant forall j :: i <= j < buf.Length ==> buf[j] == old(buf[j])
      {
        buf[i] := if i < n then user[i] else 0;
        i := i + 1;
      }
      var expected := AfterWrite(old(buf[..]), user, uncopied);
      assert forall j :: 0 <= j < buf.Length ==> buf[j] == expected[j];
      return |user|;
    }

    /** chdev_read: copy_to_user from the front of the buffer; the caller
        receives the first `count - uncopied` bytes, the buffer does not
        change, and the handler returns `count`. */
    method Read(count: nat, uncopied: nat) returns (ret: int, delivered: seq<bv8>)
      requires count <= buf.Length && uncopied <= count
      ensures ret == count
      ensures delivered == buf[..count - uncopied]
    {
      delivered := [];
      var i := 0;
      while i < count - uncopied
        invariant 0 <= i <= count - uncopied
        invariant delivered == buf[..i]
      {
        delivered := delivered + [buf[i]];
        i := i + 1;
      }
      return count, delivered;
    }

    /** write(s) followed by read(|s|) returns s. */
    method WriteThenRead(s: seq<bv8>) returns (got: seq<bv8>)
      requires |s| <= buf.Length
      modifies buf
      ensures got == s
      ensures buf[|s|..] == old(buf[|s|..])
    {
      var w := Write(s, 0);
      ReadBackWhatWasWritten(old(buf[..]), s);
      var r;
      r, got := Read(|s|, 0);
    }

    /** The hello test program's exchange: twelve bytes written, twelve
        read back, the same string. */
    method HelloExchange() returns (wrote: int, read: int, got: seq<bv8>)
      requires buf.Length == BUF_SIZE
      modifies buf
      ensures wrote == 12 && read == 12 && got == Hello
    {
      wrote := Write(Hello, 0);
      ReadBackWhatWasWritten(old(buf[..]), Hello);
      read, got := Read(|Hello|, 0);
    }

    /** chdev_open and chdev_close: 0, nothing changes. */
    method Open() returns (ret: int)
      ensures ret == 0
    {
      return 0;
    }

    method Close() returns (ret: int)
      ensures ret == 0
    {
      return 0;
    }

    /** chdev_init: register_chrdev(200), result ignored; always 0. */
    method Init(registerRet: int) returns (ret: int)
      modifies this
      ensures ret == 0
      ensures log == old(log) + InitEvents(registerRet)
    {
      if registerRet >= 0 {
        log := log + [Acquired(Major(CHDEV_MAJOR))];
      }
      return 0;
    }

    /** chdev_exit: unregister_chrdev(200). */
    method Exit()
      modifies this
      ensures log == old(log) + [Released(Major(CHDEV_MAJOR))]
    {
      log := log + [Released(Major(CHDEV_MAJOR))];
    }
  }
}

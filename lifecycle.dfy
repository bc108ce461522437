/** The resources the drivers acquire from the kernel and a log of every
    acquisition and release, with two readings of such a log: a count of each
    event, and a replay that accepts the log only when every release gives
    back the most recently acquired resource still held (the discipline a
    goto-based unwind is meant to keep). */
module Lifecycle {
  import opened Kernel

  /** The five register windows of the register-mapped LED. */
  datatype Reg = Ccgr1 | Mux | Pad | Dr | Gdir

  datatype Resource =
    | Region          // a device-number range: register/alloc_chrdev_region, unregister_chrdev_region
    | Cdev            // the character device: cdev_add, cdev_del
    | Class           // the device class: class_create, class_destroy
    | Device          // the device node: device_create, device_destroy
    | Major(n: int)   // a whole major number: register_chrdev, unregister_chrdev
    | Context         // the heap context: kzalloc, kfree
    | Line            // ownership of the GPIO line: gpio_request, gpio_free
    | Window(r: Reg)  // a mapped register window: ioremap/of_iomap, iounmap

  /** `Acquired` records a call that obtained a resource; `Released` records a
      call that gives one back, whether or not it was held. */
  datatype Event = Acquired(r: Resource) | Released(r: Resource)

  /** A device number: MKDEV(major, minor). */
  datatype DevNum = DevNum(major: int, minor: int)

  /** A `struct class *` or `struct device *` as the drivers keep it: NULL,
      a created object, or the ERR_PTR a failed create returns. */
  datatype Ptr = NullPtr | ObjPtr | ErrPtr

  /** The four registration steps of a module init, in the order they run. */
  const Steps: seq<Resource> := [Region, Cdev, Class, Device]

  /** The five windows in the order the drivers map and unmap them. */
  const Windows: seq<Reg> := [Ccgr1, Mux, Pad, Dr, Gdir]

  function Acquires(rs: seq<Resource>): (es: seq<Event>)
    ensures |es| == |rs|
    ensures forall i :: 0 <= i < |rs| ==> es[i] == Acquired(rs[i])
  {
    if rs == [] then [] else [Acquired(rs[0])] + Acquires(rs[1..])
  }

  function Releases(rs: seq<Resource>): (es: seq<Event>)
    ensures |es| == |rs|
    ensures forall i :: 0 <= i < |rs| ==> es[i] == Released(rs[i])
  {
    if rs == [] then [] else [Released(rs[0])] + Releases(rs[1..])
  }

  function Reverse(rs: seq<Resource>): (r: seq<Resource>)
    ensures |r| == |rs|
    ensures forall i :: 0 <= i < |rs| ==> r[i] == rs[|rs| - 1 - i]
  {
    if rs == [] then [] else Reverse(rs[1..]) + [rs[0]]
  }

  function WindowsOf(regs: seq<Reg>): (rs: seq<Resource>)
    ensures |rs| == |regs|
    ensures forall i :: 0 <= i < |regs| ==> rs[i] == Window(regs[i])
  {
    if regs == [] then [] else [Window(regs[0])] + WindowsOf(regs[1..])
  }

  /** How often `e` occurs in `log`. */
  function Count(log: seq<Event>, e: Event): nat
  {
    if log == [] then 0 else (if log[0] == e then 1 else 0) + Count(log[1..], e)
  }

  /** How often `r` occurs in the stack `held`. */
  function Occurrences(held: seq<Resource>, r: Resource): nat
  {
    if held == [] then 0 else (if held[0] == r then 1 else 0) + Occurrences(held[1..], r)
  }

  /** Replays `log` against the stack `held` of resources held (last = most
      recent): an acquisition pushes, a release must pop the top.  None when
      some release gives back anything else. */
  function Replay(held: seq<Resource>, log: seq<Event>): Option<seq<Resource>>
    decreases |log|
  {
    if log == [] then Some(held)
    else match log[0]
      case Acquired(r) => Replay(held + [r], log[1..])
      case Released(r) =>
        if held != [] && held[|held| - 1] == r then Replay(held[..|held| - 1], log[1..])
        else None
  }

  /** A log that, starting from nothing held, releases in last-in-first-out
      order and ends holding nothing. */
  predicate Nested(log: seq<Event>)
  {
    Replay([], log) == Some([])
  }

  lemma {:induction false} CountAppend(a: seq<Event>, b: seq<Event>, e: Event)
    ensures Count(a + b, e) == Count(a, e) + Count(b, e)
  {
    if a != [] {
      assert (a + b)[1..] == a[1..] + b;
      CountAppend(a[1..], b, e);
    } else {
      assert a + b == b;
    }
  }

  lemma {:induction false} OccurrencesAppend(a: seq<Resource>, b: seq<Resource>, r: Resource)
    ensures Occurrences(a + b, r) == Occurrences(a, r) + Occurrences(b, r)
  {
    if a != [] {
      assert (a + b)[1..] == a[1..] + b;
      OccurrencesAppend(a[1..], b, r);
    } else {
      assert a + b == b;
    }
  }

  /** Replaying a concatenation is replaying the second part from where the
      first one left off. */
  lemma {:induction false} ReplayAppend(held: seq<Resource>, a: seq<Event>, b: seq<Event>)
    ensures Replay(held, a + b) ==
      match Replay(held, a)
      case None => None
      case Some(h) => Replay(h, b)
    decreases |a|
  {
    if a == [] {
      assert a + b == b;
    } else {
      assert (a + b)[0] == a[0];
      assert (a + b)[1..] == a[1..] + b;
      match a[0]
      case Acquired(r) => ReplayAppend(held + [r], a[1..], b);
      case Released(r) =>
        if held != [] && held[|held| - 1] == r {
          ReplayAppend(held[..|held| - 1], a[1..], b);
        }
    }
  }

  /** Acquiring `rs` pushes them in order. */
  lemma {:induction false} ReplayAcquires(held: seq<Resource>, rs: seq<Resource>)
    ensures Replay(held, Acquires(rs)) == Some(held + rs)
    decreases |rs|
  {
    if rs == [] {
      assert held + rs == held;
    } else {
      assert Acquires(rs)[1..] == Acquires(rs[1..]);
      ReplayAcquires(held + [rs[0]], rs[1..]);
      assert held + [rs[0]] + rs[1..] == held + rs;
    }
  }

  /** Releasing the top of the stack in reverse order pops it back to `held`. */
  lemma {:induction false} ReplayReleasesReverse(held: seq<Resource>, rs: seq<Resource>)
    ensures Replay(held + rs, Releases(Reverse(rs))) == Some(held)
    decreases |rs|
  {
    if rs == [] {
      assert held + rs == held;
    } else {
      var last := rs[|rs| - 1];
      var init := rs[..|rs| - 1];
      assert Reverse(rs)[0] == last;
      assert Reverse(rs)[1..] == Reverse(init);
      assert Releases(Reverse(rs))[1..] == Releases(Reverse(rs)[1..]);
      assert held + rs == (held + init) + [last];
      assert (held + rs)[..|held + rs| - 1] == held + init;
      ReplayReleasesReverse(held, init);
    }
  }

  /** The unwind discipline: acquiring a list of resources and releasing it in
      exactly the reverse order leaves the stack as it was. */
  lemma UnwindInReverse(held: seq<Resource>, rs: seq<Resource>)
    ensures Replay(held, Acquires(rs) + Releases(Reverse(rs))) == Some(held)
  {
    ReplayAppend(held, Acquires(rs), Releases(Reverse(rs)));
    ReplayAcquires(held, rs);
    ReplayReleasesReverse(held, rs);
  }

  /** Conservation: a log that replays turns every acquisition of `r` into one
      more held copy and every release into one fewer, so nothing is released
      more often than it was acquired or held before. */
  lemma {:induction false} ReplayConserves(held: seq<Resource>, log: seq<Event>, r: Resource)
    requires Replay(held, log).Some?
    ensures Occurrences(Replay(held, log).value, r) + Count(log, Released(r))
         == Occurrences(held, r) + Count(log, Acquired(r))
    decreases |log|
  {
    if log != [] {
      match log[0]
      case Acquired(x) =>
        ReplayConserves(held + [x], log[1..], r);
        OccurrencesAppend(held, [x], r);
        assert Occurrences([x], r) == (if x == r then 1 else 0) by {
          assert [x][1..] == [];
        }
      case Released(x) =>
        var rest := held[..|held| - 1];
        ReplayConserves(rest, log[1..], r);
        assert held == rest + [x];
        OccurrencesAppend(rest, [x], r);
        assert Occurrences([x], r) == (if x == r then 1 else 0) by {
          assert [x][1..] == [];
        }
    }
  }

  /** A nested log releases each resource exactly as often as it acquires it. */
  lemma NestedBalances(log: seq<Event>, r: Resource)
    requires Nested(log)
    ensures Count(log, Released(r)) == Count(log, Acquired(r))
  {
    ReplayConserves([], log, r);
  }

  lemma {:induction false} OccurrencesAbsent(held: seq<Resource>, r: Resource)
    requires r !in held
    ensures Occurrences(held, r) == 0
    decreases |held|
  {
    if held != [] {
      OccurrencesAbsent(held[1..], r);
    }
  }

  lemma {:induction false} NoReleasesInAcquires(rs: seq<Resource>, r: Resource)
    ensures Count(Acquires(rs), Released(r)) == 0
    decreases |rs|
  {
    if rs != [] {
      assert Acquires(rs)[1..] == Acquires(rs[1..]);
      NoReleasesInAcquires(rs[1..], r);
    }
  }

  lemma {:induction false} NoAcquiresInReleases(rs: seq<Resource>, r: Resource)
    ensures Count(Releases(rs), Acquired(r)) == 0
    decreases |rs|
  {
    if rs != [] {
      assert Releases(rs)[1..] == Releases(rs[1..]);
      NoAcquiresInReleases(rs[1..], r);
    }
  }

  /** A log of releases releases each resource as often as it is listed. */
  lemma {:induction false} ReleasesCount(rs: seq<Resource>, r: Resource)
    ensures Count(Releases(rs), Released(r)) == Occurrences(rs, r)
    decreases |rs|
  {
    if rs != [] {
      assert Releases(rs)[1..] == Releases(rs[1..]);
      ReleasesCount(rs[1..], r);
    }
  }

  /** A log of acquisitions only replays to the list acquired, releases
      nothing, and acquires each resource as often as it is listed. */
  lemma AcquiresOnly(rs: seq<Resource>, r: Resource)
    ensures Replay([], Acquires(rs)) == Some(rs)
    ensures Count(Acquires(rs), Released(r)) == 0
    ensures Count(Acquires(rs), Acquired(r)) == Occurrences(rs, r)
  {
    ReplayAcquires([], rs);
    assert [] + rs == rs;
    NoReleasesInAcquires(rs, r);
    ReplayConserves([], Acquires(rs), r);
  }

  /** What the four registration collaborators answer during one init; the
      model chooses them freely, so every statement about init holds for
      every combination of failures. */
  datatype InitOracle = InitOracle(
    regionRet: int,   // register_chrdev_region or alloc_chrdev_region; negative on failure
    allocMajor: int,  // the major number alloc_chrdev_region hands out
    cdevRet: int,     // cdev_add; negative on failure
    classOk: bool,    // class_create: false when it returns an ERR_PTR
    deviceOk: bool)   // device_create: false when it returns an ERR_PTR
  {
    /** How many of the four steps succeed before the first one that fails,
        as the `ret < 0` and `IS_ERR` tests see them. */
    function Reached(): (k: nat)
      ensures k <= 4
      ensures k == 4 <==> regionRet >= 0 && cdevRet >= 0 && classOk && deviceOk
      ensures k == 0 <==> regionRet < 0
      ensures k == 1 <==> regionRet >= 0 && cdevRet < 0
      ensures k == 2 <==> regionRet >= 0 && cdevRet >= 0 && !classOk
      ensures k == 3 <==> regionRet >= 0 && cdevRet >= 0 && classOk && !deviceOk
    {
      if regionRet < 0 then 0
      else if cdevRet < 0 then 1
      else if !classOk then 2
      else if !deviceOk then 3
      else 4
    }
  }

  /** The acquisitions of the first k steps, spelled out. */
  lemma StepsAcquired()
    ensures Acquires(Steps[..0]) == []
    ensures Acquires(Steps[..1]) == [Acquired(Region)]
    ensures Acquires(Steps[..2]) == [Acquired(Region), Acquired(Cdev)]
    ensures Acquires(Steps[..3]) == [Acquired(Region), Acquired(Cdev), Acquired(Class)]
    ensures Acquires(Steps[..4]) == [Acquired(Region), Acquired(Cdev), Acquired(Class), Acquired(Device)]
  {
    assert Steps[..1] == [Region];
    assert Steps[..2] == [Region, Cdev];
    assert Steps[..3] == [Region, Cdev, Class];
    assert Steps[..4] == Steps;
  }

  /** The log of an init chain that got through the first `k` steps and then
      ran `unwind` (empty when all four succeeded). */
  function ChainEvents(k: nat, unwind: seq<Resource>): seq<Event>
    requires k <= 4
  {
    Acquires(Steps[..k]) + Releases(unwind)
  }
}

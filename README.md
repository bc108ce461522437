# Character-device LED and buzzer drivers, modelled in Dafny

The repository is a family of small Linux character-device drivers for an
i.MX6ULL board. Each driver exposes one active-low output, an LED or a
buzzer, as a device node. User space writes a one-byte command to switch it
and reads its state back. Seven drivers are modelled here. They have three
backends and one registration lifecycle:

- **Register-mapped LED** (`led_dts_chdev`, `led_new_chdev`, `led_chdev`).
  Five 32-bit registers drive pin GPIO1_IO03: CCM_CCGR1, the IOMUXC mux and
  pad registers, GPIO1_DR and GPIO1_GDIR. The driver reaches them through
  five `__iomem` handles. Module `Gpio1Io3` holds the bit-level
  read-modify-write functions and the class `Bank`, which has the five
  registers and five handles as fields.
- **GPIO-line backend** (`beep_gpio_chdev`, `led_gpio_chdev`, `led_device`).
  This backend drives one GPIO line: a requested flag, an output flag and a
  physical level (module `GpioLine`, class `Line`).
- **Registration lifecycle** (every `init`/`exit`). Init takes a device
  number, a cdev, a class and a device node in turn, with goto-based
  unwind. The answers of the kernel collaborators are an `InitOracle` that
  the model chooses freely. Every acquisition and release goes into a ghost
  event log (module `Lifecycle`). Two readings of a log are proved about:
  - `Count`, how often an event occurs;
  - `Replay`, which accepts a log only when every release gives back the
    most recently acquired resource still held.

  `Nested(log)` means the log replays from nothing back to nothing. Module
  `InitChains` holds the two label layouts shared by three drivers.
- **`chdev`**: a 100-byte static buffer (an `array<bv8>`) that `write` fills
  and `read` copies out.

Each driver is one module whose `Driver` class holds the driver's globals.
Each handler is a method whose postcondition gives:

- the new state in terms of the specification functions;
- the return code in every branch, error paths included.

The lemmas state what follows from those functions: round trips, which bits
change, and which unwind paths are nested, double-release or leak.

Where the code falls short of what its own structure or the kernel's
conventions promise, the model follows the code:

- A goto-based unwind is meant to release, in reverse, what init acquired.
  In the code:
  - `led_dts_chdev` and `beep_gpio_chdev` destroy the class twice after
    a failed device create, a real double release;
  - `led_dts_chdev` and `beep_gpio_chdev` call class_destroy on the ERR_PTR
    of a failed class create, and `led_gpio_chdev` calls device_destroy for
    a device it never created; both calls are out of order in the log but
    have no effect in the kernel;
  - `led_new_chdev` releases nothing;
  - `led_device` reports success after a failed class or device create.
- A `file_operations` write handler is expected to return the number of
  bytes consumed, and a read handler the number transferred. The register
  drivers return the `copy_from_user` / `copy_to_user` result instead (0
  when everything was copied), and `led_chdev`'s read returns the state
  itself.
- The outputs are active-low and write inverts the polarity, but read does
  not. The GPIO drivers' read copies the raw line level, so in
  `beep_gpio_chdev` and `led_gpio_chdev` write(b) followed by read gives
  1 - b.
- `copy_from_user` and `copy_to_user` return an unsigned count of bytes not
  copied, so every `ret < 0` → `-EFAULT` branch is dead and is not
  modelled. The copy result is a `nat`, and the uncopied tail of a
  `copy_from_user` is zero-filled.
- `open` is re-entrant only in `led_device`, through its init flag. The
  other drivers look up, request or map their resources again on every
  open.

## Model

| member | source | states |
|---|---|---|
| Kernel.CopyFromUser | dev_node/chdev/chdev.c:18 | the kernel buffer has the caller's length, holds the bytes that were read, and is zero where the copy fell short |
| Kernel.LeWord | dev_node/beep_gpio_chdev/beep_gpio_chdev.c:84-93 | a little-endian u32 has the four given bytes in byte lanes 0 to 3; it is 0, or 1, exactly for the byte patterns 0,0,0,0 and 1,0,0,0 |
| Kernel.FirstWord | dev_node/beep_gpio_chdev/beep_gpio_chdev.c:84-93 | the first u32 of the copy buffer is 1 (or 0) exactly when byte 0 is 1 (or 0) and the other three bytes, copied or stale, are 0 |
| Lifecycle.InitOracle.Reached | dev_node/led_dts_chdev/led_dts_chdev.c:177-226 | the number of registration steps that succeed before the first `ret < 0` or `IS_ERR` test fires; all four iff every collaborator succeeded |
| Lifecycle.UnwindInReverse | dev_node/led/led_device/led_device.c:191-199 | acquiring a list and releasing it in exactly the reverse order leaves the held stack unchanged |
| Lifecycle.ReplayConserves | dev_node/led_dts_chdev/led_dts_chdev.c:230-238 | along a replayable log, held copies plus releases of a resource equal initial copies plus acquisitions, so nothing is released more often than held |
| Lifecycle.NestedBalances | dev_node/led_dts_chdev/led_dts_chdev.c:240-246 | a nested log releases every resource exactly as often as it acquires it |
| Lifecycle.AcquiresOnly | dev_node/led/led_new_chdev/led_new_chdev.c:160-197 | a log of acquisitions only replays to the list acquired, releases nothing, and acquires each resource as often as it is listed |
| Gpio1Io3.EnableClock | dev_node/led_dts_chdev/led_dts_chdev.c:89-92 | after the CCGR1 update both clock-gate bits 26-27 are set and every other bit is unchanged |
| Gpio1Io3.SetIo3 | dev_node/led_dts_chdev/led_dts_chdev.c:101-103 | bit 3 is set (LED OFF) and every other bit is unchanged |
| Gpio1Io3.ClearIo3 | dev_node/led_dts_chdev/led_dts_chdev.c:144-146 | bit 3 is clear (LED ON) and every other bit is unchanged |
| Gpio1Io3.StateOf | dev_node/led_dts_chdev/led_dts_chdev.c:158-160 | the reported byte is LED_OFF or LED_ON, and LED_ON iff DR bit 3 is clear |
| Gpio1Io3.Command | dev_node/led_dts_chdev/led_dts_chdev.c:138-150 | a byte is accepted iff it is 0 or 1; the new DR reads back as that byte and differs from the old DR in bit 3 at most |
| Gpio1Io3.CommandRoundTrip | dev_node/led_dts_chdev/led_dts_chdev.c:138-160 | for both protocol bytes, write then read reports the byte, and a second identical write changes nothing |
| Gpio1Io3.Bank.constructor | dev_node/led/led_new_chdev/led_new_chdev.c:50-54 | the registers hold the hardware's values and the five handles start NULL |
| Gpio1Io3.Bank.Map | dev_node/led/led_new_chdev/led_new_chdev.c:65-69 | ioremap makes exactly that window's handle live and changes no register |
| Gpio1Io3.Bank.Unmap | dev_node/led_dts_chdev/led_dts_chdev.c:120-124 | iounmap turns a live handle into a stale, non-NULL pointer and changes no register |
| Gpio1Io3.Bank.Readl | dev_node/led_dts_chdev/led_dts_chdev.c:89 | a read through a live handle returns that register's content |
| Gpio1Io3.Bank.Writel | dev_node/led_dts_chdev/led_dts_chdev.c:92 | a write through a live handle changes that register only |
| Gpio1Io3.Bank.MapAll | dev_node/led_dts_chdev/led_dts_chdev.c:83-87 | all five handles become live and the registers are unchanged |
| Gpio1Io3.Bank.UnmapAll | dev_node/led_dts_chdev/led_dts_chdev.c:120-124 | all five handles become stale and the registers are unchanged |
| Gpio1Io3.Bank.ClearAll | dev_node/led/led_new_chdev/led_new_chdev.c:105-109 | all five handles are reset to NULL and the registers are unchanged |
| Gpio1Io3.Bank.ConfigureIo3 | dev_node/led_dts_chdev/led_dts_chdev.c:89-103 | CCGR1 gets EnableClock of its old value, mux and pad are written verbatim (0x05, 0x10B0), and GDIR and DR get bit 3 set |
| Gpio1Io3.Bank.DriveOff | dev_node/led_dts_chdev/led_dts_chdev.c:140-142 | DR becomes SetIo3 of its old value; every other register and handle is unchanged |
| Gpio1Io3.Bank.DriveOn | dev_node/led_dts_chdev/led_dts_chdev.c:144-146 | DR becomes ClearIo3 of its old value; every other register and handle is unchanged |
| Gpio1Io3.MapThenUnmapBalances | dev_node/led_dts_chdev/led_dts_chdev.c:83-124 | an open that maps the five windows followed by a release that unmaps them acquires and releases each window exactly once |
| Gpio1Io3.MapThenUnmapNotNested | dev_node/led_dts_chdev/led_dts_chdev.c:83-124 | the windows are unmapped in the order they were mapped, not in reverse, so that map/unmap log is not nested |
| GpioLine.ToU32 | dev_node/beep_gpio_chdev/beep_gpio_chdev.c:45-46 | storing an int in a u32 keeps non-negative values and wraps negative error numbers to large line numbers, so the `< 0` test can never fire |
| GpioLine.LowByte | dev_node/beep_gpio_chdev/beep_gpio_chdev.c:120 | the one byte copied from an int level is the level itself for levels 0 and 1 |
| GpioLine.ActiveLowLevel | dev_node/beep_gpio_chdev/beep_gpio_chdev.c:93-105 | a decoded word is accepted iff it is 0 or 1, and drives level 1 - word (ON = 1 drives 0) |
| GpioLine.PassThroughLevel | dev_node/led/led_device/led_device.c:123-131 | a decoded word is accepted iff it is 0 or 1, and drives that level unchanged |
| GpioLine.OneByteDecodeDependsOnStaleBytes | dev_node/beep_gpio_chdev/beep_gpio_chdev.c:84-105 | a one-byte write is accepted iff the byte is 0 or 1 and the three stack bytes the copy did not reach are zero |
| GpioLine.OneByteDecodeWithZeroStack | dev_node/led/led_device/led_device.c:114-123 | with a zeroed stack a one-byte copy decodes as the byte itself |
| GpioLine.WriteThenReadGivesInverse | dev_node/beep_gpio_chdev/beep_gpio_chdev.c:93-120 | a write of protocol byte b is accepted, and the raw level read back is 1 - b |
| GpioLine.Line.constructor | dev_node/beep_gpio_chdev/beep_gpio_chdev.c:114 | a line starts unrequested, not an output, at a level of 0 or 1, the only levels gpiolib reports |
| GpioLine.Line.Request | dev_node/beep_gpio_chdev/beep_gpio_chdev.c:52-57 | gpio_request fails busy on a line already owned and otherwise passes the controller's answer through; the line is owned iff it was or the request succeeded |
| GpioLine.Line.DirectionOutput | dev_node/beep_gpio_chdev/beep_gpio_chdev.c:59-65 | on success the line becomes an output at the given level; on failure nothing changes |
| GpioLine.Line.SetValue | dev_node/beep_gpio_chdev/beep_gpio_chdev.c:72 | the level becomes the value and ownership and direction are kept |
| GpioLine.Line.GetValue | dev_node/beep_gpio_chdev/beep_gpio_chdev.c:114 | returns the level, or the controller's negative error |
| GpioLine.Line.Free | dev_node/beep_gpio_chdev/beep_gpio_chdev.c:73 | the line is no longer owned and keeps its level |
| InitChains.ExitEvents | dev_node/led_dts_chdev/led_dts_chdev.c:240-246 | exit releases device, class, cdev and number: exactly the reverse of the order init acquires them in |
| InitChains.ClassTwiceUnwind | dev_node/led_dts_chdev/led_dts_chdev.c:230-238 | the releases run from the label of the failed step: nothing when the number failed, otherwise ending with the number; the class appears iff class_create was reached, and the device never |
| InitChains.ClassTwiceInit | dev_node/beep_gpio_chdev/beep_gpio_chdev.c:187-195 | the log of one init starts with the acquisitions of the steps reached, in order; a full success is exactly the four acquisitions and a failed number registration logs nothing |
| InitChains.DeviceFirstUnwind | dev_node/led_gpio_chdev/led_gpio_chdev.c:188-196 | the releases run from the label of the failed step, ending with the number; the class appears iff class_create was reached and the device iff device_create was the failed step |
| InitChains.DeviceFirstInit | dev_node/led_gpio_chdev/led_gpio_chdev.c:188-196 | the log of one led_gpio_chdev init starts with the acquisitions of the steps reached, in order; a full success is exactly the four acquisitions and a failed number registration logs nothing |
| InitChains.FullChainThenExitNested | dev_node/led_dts_chdev/led_dts_chdev.c:177-246 | a fully successful init acquires number, cdev, class and device in that order, and exit then releases them in exactly the reverse order |
| InitChains.ClassTwiceByOutcome | dev_node/led_dts_chdev/led_dts_chdev.c:177-238 | the event log of each of the five init outcomes, label by label |
| InitChains.ClassTwiceReversesOnlyEarlyFailures | dev_node/led_dts_chdev/led_dts_chdev.c:230-238 | the unwind is the exact reverse of what was acquired iff the number or the cdev step failed |
| InitChains.CdevFailureReleasesOnlyTheNumber | dev_node/led_dts_chdev/led_dts_chdev.c:204-210 | a cdev_add failure releases exactly the number region, and the log is nested |
| InitChains.ClassFailureDestroysUncreatedClass | dev_node/led_dts_chdev/led_dts_chdev.c:213-219 | a class_create failure calls class_destroy on a class that was never created, so the log of calls is not nested |
| InitChains.DeviceFailureDestroysClassTwice | dev_node/beep_gpio_chdev/beep_gpio_chdev.c:187-195 | a device_create failure destroys the class twice after creating it once, so the log is not nested |
| InitChains.DeviceFirstByOutcome | dev_node/led_gpio_chdev/led_gpio_chdev.c:188-196 | the event log of each of the five led_gpio_chdev init outcomes |
| InitChains.LayoutsDifferOnlyOnDeviceFailure | dev_node/led_gpio_chdev/led_gpio_chdev.c:188-196 | the two label layouts give the same log iff device_create did not fail |
| InitChains.DeviceFailureDestroysUncreatedDevice | dev_node/led_gpio_chdev/led_gpio_chdev.c:188-196 | on device_create failure the unwind runs device_destroy, cdev_del, class_destroy, unregister: one release of a device never created, so the log is not nested |
| InitChains.Registration.constructor | dev_node/beep_gpio_chdev/beep_gpio_chdev.c:31 | the zero-initialised driver info: no major, no class, no device, empty log |
| InitChains.Registration.Register | dev_node/led_dts_chdev/led_dts_chdev.c:177-226 | the steps up to the first failure are logged as acquisitions; the number is registered when a major is set and allocated otherwise; the class and device pointers hold the object or the ERR_PTR |
| InitChains.Registration.UnwindClassTwice | dev_node/led_dts_chdev/led_dts_chdev.c:230-238 | entering the labels at the failed step logs the releases of ClassTwiceUnwind and changes nothing else |
| InitChains.Registration.UnwindDeviceFirst | dev_node/led_gpio_chdev/led_gpio_chdev.c:188-196 | entering the labels at the failed step logs the releases of DeviceFirstUnwind and changes nothing else |
| InitChains.Registration.Exit | dev_node/led_dts_chdev/led_dts_chdev.c:240-246 | logs the releases of device, class, cdev and number |
| LedDtsChdev.FaultedWriteSwitchesOff | dev_node/led_dts_chdev/led_dts_chdev.c:132-142 | a write whose copy read nothing still switches the LED off, because the zero-filled first byte decodes as LED_OFF |
| LedDtsChdev.Driver.constructor | dev_node/led_dts_chdev/led_dts_chdev.c:20-35 | the driver info starts zeroed (no major, class or device, empty log) over the given register bank |
| LedDtsChdev.Driver.Open | dev_node/led_dts_chdev/led_dts_chdev.c:39-106 | returns 0 iff the node, its status and its 10-word reg array are all found; otherwise -EINVAL with no window mapped and no register touched; on success all windows are mapped and the pin is configured with the LED OFF |
| LedDtsChdev.Driver.Release | dev_node/led_dts_chdev/led_dts_chdev.c:108-125 | DR bit 3 is set (OFF), and then all five windows are unmapped, leaving stale handles |
| LedDtsChdev.Driver.Write | dev_node/led_dts_chdev/led_dts_chdev.c:127-153 | a protocol first byte moves DR as Command says and returns the copy result; any other byte returns -EINVAL with DR untouched; no other register changes |
| LedDtsChdev.Driver.Read | dev_node/led_dts_chdev/led_dts_chdev.c:154-162 | delivers one byte, LED_ON iff DR bit 3 is clear, and returns the copy result |
| LedDtsChdev.Driver.WriteThenRead | dev_node/led_dts_chdev/led_dts_chdev.c:127-162 | write(b) then read() delivers b; only DR bit 3 changes, and every other register and every handle keeps its value |
| LedDtsChdev.Driver.Init | dev_node/led_dts_chdev/led_dts_chdev.c:173-239 | returns 0 iff all four steps succeed, else -EINVAL; the log is ClassTwiceInit; the major, device number and class/device pointers are as registered |
| LedDtsChdev.Driver.Exit | dev_node/led_dts_chdev/led_dts_chdev.c:240-246 | releases device, class, cdev and number |
| BeepGpioChdev.Driver.constructor | dev_node/beep_gpio_chdev/beep_gpio_chdev.c:19-31 | the zero-initialised `beep_gpio_chdev_info`: no node, GPIO number 0, no major, class or device, empty logs, over the given line |
| BeepGpioChdev.Driver.Open | dev_node/beep_gpio_chdev/beep_gpio_chdev.c:32-68 | -ENODEV iff the node is missing; -EACCES iff the request fails; -EIO iff the direction fails, in which case the line is freed again; 0 iff the line is owned and driven to 1; an unresolvable line never yields -ENODEV |
| BeepGpioChdev.Driver.Release | dev_node/beep_gpio_chdev/beep_gpio_chdev.c:70-79 | the line is driven to 1 (off) and then freed |
| BeepGpioChdev.Driver.Write | dev_node/beep_gpio_chdev/beep_gpio_chdev.c:81-107 | the first u32 of the copy drives ActiveLowLevel and returns the copy result; any other word returns -ENOEXEC with the level untouched |
| BeepGpioChdev.Driver.Read | dev_node/beep_gpio_chdev/beep_gpio_chdev.c:108-121 | a negative level gives -EIO; otherwise the raw, uninverted level byte is copied out and the copy result returned |
| BeepGpioChdev.Driver.WriteThenRead | dev_node/beep_gpio_chdev/beep_gpio_chdev.c:81-121 | write(b) then read() delivers 1 - b; the line is left at level 1 - b and its ownership and direction are unchanged |
| BeepGpioChdev.Driver.Init | dev_node/beep_gpio_chdev/beep_gpio_chdev.c:130-196 | returns 0 iff all four steps succeed, else -EINVAL; the log is ClassTwiceInit |
| BeepGpioChdev.Driver.Exit | dev_node/beep_gpio_chdev/beep_gpio_chdev.c:198-204 | releases device, class, cdev and number |
| LedGpioChdev.Driver.constructor | dev_node/led_gpio_chdev/led_gpio_chdev.c:19-31 | the zero-initialised `led_gpio_chdev_info`: no node, GPIO number 0, no major, class or device, empty logs, over the given line |
| LedGpioChdev.Driver.Open | dev_node/led_gpio_chdev/led_gpio_chdev.c:32-68 | as beep_gpio_chdev's open, for node "/gpio_led": each error code iff its failure, the line freed again on direction failure, owned and high on success |
| LedGpioChdev.Driver.Release | dev_node/led_gpio_chdev/led_gpio_chdev.c:70-79 | the line is driven to 1 and then freed |
| LedGpioChdev.Driver.Write | dev_node/led_gpio_chdev/led_gpio_chdev.c:81-107 | the first u32 drives ActiveLowLevel; any other word returns -ENOEXEC with no line change |
| LedGpioChdev.Driver.Read | dev_node/led_gpio_chdev/led_gpio_chdev.c:108-121 | -EIO on a negative level, otherwise the raw level byte and the copy result |
| LedGpioChdev.Driver.WriteThenRead | dev_node/led_gpio_chdev/led_gpio_chdev.c:81-121 | write(b) then read() delivers 1 - b; the line is left at level 1 - b and its ownership and direction are unchanged |
| LedGpioChdev.Driver.Init | dev_node/led_gpio_chdev/led_gpio_chdev.c:130-197 | returns 0 iff all four steps succeed, else -EINVAL; the log is DeviceFirstInit |
| LedGpioChdev.Driver.Exit | dev_node/led_gpio_chdev/led_gpio_chdev.c:199-205 | releases device, class, cdev and number |
| LedNewChdev.InitEvents | dev_node/led/led_new_chdev/led_new_chdev.c:160-197 | init never releases anything; the class is acquired iff class_create succeeds and the device iff both creates succeed |
| LedNewChdev.InitResult | dev_node/led/led_new_chdev/led_new_chdev.c:184-197 | init returns 0 iff the class and the device were created, and -1 otherwise |
| LedNewChdev.ExitEvents | dev_node/led/led_new_chdev/led_new_chdev.c:200-211 | exit releases four resources, all among the four steps, but not in the reverse of init's order |
| LedNewChdev.InitIgnoresNumberAndCdev | dev_node/led/led_new_chdev/led_new_chdev.c:160-197 | init returns 0 iff the class and the device were created, whatever the number and cdev calls answered; otherwise -1; it never releases anything |
| LedNewChdev.DeviceFailureLeaksTheClass | dev_node/led/led_new_chdev/led_new_chdev.c:191-196 | after a device_create failure the class was acquired once and never released: the log replays but not back to nothing |
| LedNewChdev.ExitNotReverse | dev_node/led/led_new_chdev/led_new_chdev.c:200-211 | exit releases, each once, exactly the four resources init acquired (equal multisets), but not in reverse order, so even a successful init plus exit is not nested |
| LedNewChdev.ExitReleasesTheSteps | dev_node/led/led_new_chdev/led_new_chdev.c:200-211 | the multiset of ExitEvents is exactly that of releasing the four registration steps, each once |
| LedNewChdev.ExitAfterFullInit | dev_node/led/led_new_chdev/led_new_chdev.c:200-211 | after the full chain, exit's first release (the cdev) is not the top of the stack (the device), so the log is not nested |
| LedNewChdev.Driver.constructor | dev_node/led/led_new_chdev/led_new_chdev.c:33-54 | `led_new_chdev_info` starts zeroed (no number, class or device, empty log) over the given register bank |
| LedNewChdev.Driver.Open | dev_node/led/led_new_chdev/led_new_chdev.c:58-89 | always 0; all windows mapped and the pin configured with the LED OFF |
| LedNewChdev.Driver.Close | dev_node/led/led_new_chdev/led_new_chdev.c:90-110 | DR bit 3 set, all windows unmapped and every handle reset to NULL |
| LedNewChdev.Driver.Write | dev_node/led/led_new_chdev/led_new_chdev.c:112-138 | 0 sets DR bit 3, 1 clears it, both return the copy result; anything else is -EINVAL; only DR bit 3 ever changes |
| LedNewChdev.Driver.Read | dev_node/led/led_new_chdev/led_new_chdev.c:139-147 | delivers LED_ON iff DR bit 3 is clear and returns the copy result |
| LedNewChdev.Driver.Init | dev_node/led/led_new_chdev/led_new_chdev.c:157-199 | the result is InitResult and the log is InitEvents; the major and device number are as registered |
| LedNewChdev.Driver.RegisterNumber | dev_node/led/led_new_chdev/led_new_chdev.c:160-170 | registers MKDEV(major, 0) when a major is set and allocates one otherwise, ignoring the result |
| LedNewChdev.Driver.Exit | dev_node/led/led_new_chdev/led_new_chdev.c:200-211 | releases cdev, number, device and class, in that order |
| LedChdev.InitEvents | dev_node/led_chdev/led_chdev.c:127-137 | init logs nothing iff register_chrdev(201) fails, and otherwise leaves exactly major 201 held |
| LedChdev.InitThenExitNested | dev_node/led_chdev/led_chdev.c:127-141 | a refused major acquires nothing; an accepted major 201 is given back by exit |
| LedChdev.Driver.constructor | dev_node/led_chdev/led_chdev.c:25-29 | the five handles live in the given register bank and the log starts empty |
| LedChdev.Driver.Open | dev_node/led_chdev/led_chdev.c:32-60 | always 0; all windows mapped and the pin configured with the LED OFF |
| LedChdev.Driver.Close | dev_node/led_chdev/led_chdev.c:61-81 | DR bit 3 set, all windows unmapped and every handle reset to NULL |
| LedChdev.Driver.Write | dev_node/led_chdev/led_chdev.c:83-109 | 0 sets DR bit 3, 1 clears it, both return the copy result (0, not the count); anything else is -EINVAL; other bits are preserved |
| LedChdev.Driver.Read | dev_node/led_chdev/led_chdev.c:110-115 | copies nothing and returns 1 iff DR bit 3 is clear, else 0 |
| LedChdev.Driver.WriteThenRead | dev_node/led_chdev/led_chdev.c:83-115 | a complete write of b returns 0 and the next read returns b; only DR bit 3 changes, and every other register and every handle keeps its value |
| LedChdev.Driver.Init | dev_node/led_chdev/led_chdev.c:127-137 | -EIO iff register_chrdev(201) fails, else 0, logging the major only on success |
| LedChdev.Driver.Exit | dev_node/led_chdev/led_chdev.c:138-141 | releases major 201 |
| LedDevice.Unwind | dev_node/led/led_device/led_device.c:191-199 | the labels entered at failed step k release k resources and then the context, last and only there; the device is never released |
| LedDevice.InitEvents | dev_node/led/led_device/led_device.c:145-202 | init logs nothing iff kzalloc fails; otherwise the context is acquired first and, when a step fails, released last |
| LedDevice.InitResult | dev_node/led/led_device/led_device.c:145-202 | -1 when kzalloc fails; negative when the number or the cdev step failed; 0 on success, and non-negative after a failed class or device create, exactly 0 when cdev_add returned 0 |
| LedDevice.ExitEvents | dev_node/led/led_device/led_device.c:203-219 | exit only releases; it frees the line iff the init flag is set, and frees the context last |
| LedDevice.UnwindIsReverse | dev_node/led/led_device/led_device.c:191-199 | the unwind from each failed step releases exactly the steps before it in reverse, then the context |
| LedDevice.FailedInitNested | dev_node/led/led_device/led_device.c:145-202 | every failed init releases what it acquired in reverse order and ends holding nothing |
| LedDevice.LateFailureReportsSuccess | dev_node/led/led_device/led_device.c:177-201 | a failed class or device create frees the context once, yet init returns the cdev_add result, which is not negative and is exactly 0 when cdev_add returned 0, so the module loads |
| LedDevice.InitOpenExitNested | dev_node/led/led_device/led_device.c:145-218 | a successful init, an open that claimed the line (or none), and exit release everything in exactly the reverse order |
| LedDevice.WriteThenReadGivesValue | dev_node/led/led_device/led_device.c:96-125 | a one-byte write of 0 or 1 drives that level, and its byte reads back unchanged |
| LedDevice.Info.constructor | dev_node/led/led_device/led_device.c:149 | kzalloc gives a zeroed context with the flag clear |
| LedDevice.Info.Register | dev_node/led/led_device/led_device.c:157-189 | runs the four steps up to the first failure; `ret` is the region result when that failed and the cdev_add result otherwise |
| LedDevice.Driver.constructor | dev_node/led/led_device/led_device.c:36 | `led_info` starts NULL over the given line, with an empty log |
| LedDevice.Driver.Open | dev_node/led/led_device/led_device.c:38-79 | with the flag set, returns 0 and touches nothing; otherwise -ENODEV, -EACCES, -EIO or 0 iff the matching failure or none, the flag set iff 0, and the line freed again on direction failure |
| LedDevice.Driver.Release | dev_node/led/led_device/led_device.c:80-87 | drives LED_OFF only when the flag is set, frees nothing and always returns 0 |
| LedDevice.Driver.Read | dev_node/led/led_device/led_device.c:89-109 | -EINVAL when count < 1, -EIO on a negative level, otherwise the raw level byte and 1, even when the copy faulted |
| LedDevice.Driver.Write | dev_node/led/led_device/led_device.c:111-134 | the u32 decoded from one copied byte drives PassThroughLevel and returns 1; anything else is -EINVAL with no set |
| LedDevice.Driver.WriteThenRead | dev_node/led/led_device/led_device.c:89-134 | write(v) then read() delivers v; the line is left at level v and its ownership and direction are unchanged |
| LedDevice.Driver.Init | dev_node/led/led_device/led_device.c:145-202 | the result is InitResult and the log is InitEvents; the context survives iff allocation and all four steps succeed |
| LedDevice.Driver.RegisterChain | dev_node/led/led_device/led_device.c:157-201 | the steps and the unwind from the failed one are logged; on failure `led_info` becomes NULL |
| LedDevice.Driver.UnwindFrom | dev_node/led/led_device/led_device.c:191-199 | entering the labels at the failed step logs the releases of Unwind, down to the kfree |
| LedDevice.Driver.Exit | dev_node/led/led_device/led_device.c:203-219 | with a context: when the flag is set the line goes to LED_ON and is freed, then device, class, cdev, number and context are released; `led_info` ends NULL |
| Chdev.AfterWrite | dev_node/chdev/chdev.c:18 | the buffer keeps its length, its front holds the copied bytes, and its tail beyond the write is unchanged |
| Chdev.ReadBackWhatWasWritten | dev_node/chdev/chdev.c:18-30 | after a complete write, the front of the buffer is exactly what was written |
| Chdev.WriteOverwrites | dev_node/chdev/chdev.c:18 | writing the same bytes twice is writing them once, and a longer second write hides the first |
| Chdev.InitEvents | dev_node/chdev/chdev.c:67-76 | init logs nothing iff register_chrdev(200) fails, and otherwise leaves exactly major 200 held |
| Chdev.RefusedMajorStillReleased | dev_node/chdev/chdev.c:67-85 | when register_chrdev(200) is refused, init still succeeds and exit releases a major never acquired |
| Chdev.Driver.constructor | dev_node/chdev/chdev.c:11 | the buffer has 100 bytes, all zero |
| Chdev.Driver.Write | dev_node/chdev/chdev.c:15-25 | the buffer becomes AfterWrite of its old content and the handler returns count |
| Chdev.Driver.Read | dev_node/chdev/chdev.c:27-37 | delivers the front of the buffer, does not modify it, and returns count |
| Chdev.Driver.WriteThenRead | dev_node/chdev/chdev.c:15-37 | write(s) then read(len s) delivers s, and the rest of the buffer is unchanged |
| Chdev.Driver.HelloExchange | rootfs/rootfs/share/hello/hello.c:9-31 | the test program's twelve-byte "hello world" write returns 12, and the read returns 12 and the same string |
| Chdev.Driver.Open | dev_node/chdev/chdev.c:39-44 | returns 0 and changes nothing |
| Chdev.Driver.Close | dev_node/chdev/chdev.c:46-50 | returns 0 and changes nothing |
| Chdev.Driver.Init | dev_node/chdev/chdev.c:67-76 | returns 0 whatever register_chrdev answered, logging the major only when accepted |
| Chdev.Driver.Exit | dev_node/chdev/chdev.c:77-85 | releases major 200 |

## Left out

- Kernel collaborators are not modelled as the kernel implements them. This covers ioremap/of_iomap/iounmap, the device-tree lookups, of_get_named_gpio, the gpio_* calls, cdev_*, class_*/device_* and the chrdev region calls. Each is an abstract step whose answer is a parameter (`DtLookup`, `GpioLookup`, `InitOracle`, `getErr`, `registerRet`, `allocOk`), logged in a ghost event log.
- ioremap and of_iomap are taken to succeed, because no driver checks their result.
- Physical register addresses and the electrical meaning of 0x05 and 0x10B0 are not modelled; these values are constants only.
- printk, `THIS_MODULE`, the `file_operations` tables, `file->private_data` bookkeeping, cdev_init and the device-tree node reference count (of_node_put) are left out, because they have no behaviour to state.
- Concurrency between opens is not modelled: every handler runs to completion on its own.
- The user-space test programs code/led/led.c and code/beep/beep.c are not part of this model: they are endless I/O loops. rootfs/rootfs/share/hello/hello.c appears only as the `HelloExchange` scenario.
- The stack buffers sized by `count` become the preconditions `1 <= count` on the write handlers. chdev's unchecked 100-byte bound becomes the precondition `count <= 100`. The overflows beyond them are not modelled.
- The unread upper bytes of the `u32` decode buffer are an explicit `stale` parameter. The ON/OFF round trips assume they are zero; `GpioLine.OneByteDecodeDependsOnStaleBytes` states what happens otherwise.
- The release and close handlers of the register drivers require all five windows live, and write/read require the DR window live. A handler called before open (through a NULL or stale handle) is not modelled.
- The event log records calls, not their effects. class_destroy on an ERR_PTR and device_destroy on a number with no device do nothing in the kernel, so `InitChains.ClassFailureDestroysUncreatedClass` and `InitChains.DeviceFailureDestroysUncreatedDevice` describe out-of-order calls, not double releases. Only the second class_destroy after a failed device create (`InitChains.DeviceFailureDestroysClassTwice`) releases a resource twice.
- gpio_set_value is modelled as storing the value given. The controller's normalisation of non-zero values is not modelled, since the drivers only pass 0 and 1.
- GpioLine.LowByte: states the copied byte only for levels 0 and 1, the levels gpiolib reports. Levels above 1 are not characterised because that int-to-byte conversion is too costly for the solver.
- The unreachable `ret < 0` → `-EFAULT` branches after copy_from_user and copy_to_user are not modelled, because those calls return an unsigned count.
- GpioLine.Line.Request: a line that this driver already owns fails with -EBUSY; requests by other drivers are folded into the controller's answer `reqRet`.

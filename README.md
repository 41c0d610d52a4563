# CMSIS-DAP v2 USB transport (pyOCD `PyUSBv2`) in Dafny

This project models the CMSIS-DAP v2 bulk-endpoint transport of pyOCD,
`pyocd/probe/pydapaccess/interface/pyusb_v2_backend.py`. It covers three parts:

- **The device matcher.** `HasCmsisDapv2Interface.__call__` and
  `match_cmsis_dap_interface_name` decide whether a USB device is a CMSIS-DAP v2
  probe. The device class must be accepted. The first interface whose string
  contains `CMSIS-DAP` must be vendor-specific (class 0xff, subclass 0). An
  optional serial-number filter applies.
- **Device search.** `usb.core.find` with that matcher runs over an abstract bus,
  which is the sequence of devices the host stack enumerates.
- **The `PyUSBv2` session object.** This covers `open` (device lookup, binding the
  endpoints by position, claim, the flush of stale IN reports) and the command
  receive thread. That thread is gated by the permit counter `read_sem`, which
  `write` releases, and it leaves a terminal `None` marker in `rcv_data` when it
  exits. The model also covers the SWO receive thread and its `swo_data` queue,
  `write`, `read`, `read_swo`, `close`, discovery (`get_all_connected_interfaces`)
  and the setters.

How the model represents these:

- **Threads.** The two background threads are state machines with a program
  counter. `RxStep` and `SwoRxStep` each take one atomic step. Every interleaving
  of those steps with the caller's calls is a run of the model. `join` (in
  `close` and `stop_swo`) is a loop that steps the thread until it exits, and the
  model proves that this loop terminates.
- **Endpoint data.** The fields `inPipe` and `swoPipe` hold the reports the probe
  has queued on the IN and SWO endpoints. A read that finds its pipe empty stands
  for the read timing out.
- **Permits.** Two ghost counters prove that the command receive thread never
  receives more reports than permits have been released. Permits come from
  `write` and also from `close`. `read_sem` is created once per object, so a
  permit `close` leaves unconsumed carries over to the next session (see
  "## Findings").
- **Descriptors.** Descriptor and string reads that raise are values
  (`ConfigFailed`, `StringFailed`). A missing endpoint handle (`None`) behaves
  like Python's AttributeError: the read raises and the thread exits.

Files:

- `usb.dfy`: bytes, descriptors, the pyusb access errors.
- `matcher.dfy`: the matcher.
- `bus.dfy`: `usb.core.find`.
- `backend.dfy`: the `PyUSBv2` class and its pure helpers.
- `scenarios.dfy`: end-to-end client runs.

Where the documented behaviour and the code differ, the model follows the code:

- **`start_swo`.** It does not check `has_swo_ep`. On a device with two
  endpoints it starts a thread that dies on its first read, and the next
  `read_swo` raises (`Scenarios.SwoWithoutEndpointFails`). It does not fail fast.
- **`read`.** It never pops the terminal marker. Once the receive thread has
  exited, every later `read` raises, not just one
  (`Scenarios.ReadAfterExitKeepsFailing`).
- **`read_swo`.** Chunks popped before the marker are dropped, and the marker
  stays at the head of the queue.

## Model

| member | source | states |
|---|---|---|
| Matcher.ContainsSubstring | pyocd/probe/pydapaccess/interface/pyusb_v2_backend.py:257 | Python's `sub in s`: true exactly when `sub` occurs at some position of `s` |
| Matcher.NameMatches | pyocd/probe/pydapaccess/interface/pyusb_v2_backend.py:255-257 | The interface-name match fails exactly when reading the string raises, and passes on that error. It yields true exactly when a name is present and contains "CMSIS-DAP" |
| Matcher.FindInterface | pyocd/probe/pydapaccess/interface/pyusb_v2_backend.py:274 | An interface found by the descriptor search is one of the configuration's interfaces, and its name matches |
| Matcher.FindInterfaceAt | pyocd/probe/pydapaccess/interface/pyusb_v2_backend.py:274 | Suppose every earlier interface read cleanly and was not named CMSIS-DAP. Then the search returns None past the end, returns the interface at k if its name matches, and propagates the error if reading its name raised |
| Matcher.FindInterfaceStops | pyocd/probe/pydapaccess/interface/pyusb_v2_backend.py:274 | Every interface list has a position where the search stops |
| Matcher.WrongClassNeverMatches | pyocd/probe/pydapaccess/interface/pyusb_v2_backend.py:269-270 | A device whose class is outside the accepted set does not match, whatever its configuration holds |
| Matcher.MatchesSound | pyocd/probe/pydapaccess/interface/pyusb_v2_backend.py:266-303 | A match implies four things: the device class is accepted; the configuration was read; the first interface named CMSIS-DAP has class 0xff and subclass 0; and the serial numbers agree when a filter is set |
| Matcher.MatchesComplete | pyocd/probe/pydapaccess/interface/pyusb_v2_backend.py:266-303 | Every device meeting those conditions matches |
| Matcher.DescriptorFailureNeverMatches | pyocd/probe/pydapaccess/interface/pyusb_v2_backend.py:272-291 | A failing configuration read means no match. So does a failing string read reached before any CMSIS-DAP interface. OSError, USBError, IndexError and NotImplementedError are treated alike |
| Matcher.UnnamedNeverMatches | pyocd/probe/pydapaccess/interface/pyusb_v2_backend.py:293-294 | A device with no interface named CMSIS-DAP does not match |
| Matcher.HasCmsisDapv2Interface.Matches | pyocd/probe/pydapaccess/interface/pyusb_v2_backend.py:259-303 | `__call__`. A match implies that the device class is accepted and the active configuration was read. With a serial filter set, it also implies the device reports that serial number. `MatchesSound` and `MatchesComplete` characterise it fully |
| Matcher.SerialFilterNarrows | pyocd/probe/pydapaccess/interface/pyusb_v2_backend.py:300-302 | The serial-filtered matcher accepts exactly the devices the unfiltered one accepts that also report that serial number |
| UsbBus.FindAll | pyocd/probe/pydapaccess/interface/pyusb_v2_backend.py:170 | Searching for every match returns only devices on the bus that match, and at most as many as the bus holds |
| UsbBus.FindFirst | pyocd/probe/pydapaccess/interface/pyusb_v2_backend.py:72 | The single search returns a matching device from the bus, if it returns one |
| UsbBus.FindAllKeepsEveryMatch | pyocd/probe/pydapaccess/interface/pyusb_v2_backend.py:170 | Searching for every match leaves out no matching device |
| UsbBus.FindAllAppend | pyocd/probe/pydapaccess/interface/pyusb_v2_backend.py:170 | The search result is in bus order: searching two stretches one after the other gives the two results concatenated |
| UsbBus.FindFirstIsFirstOfFindAll | pyocd/probe/pydapaccess/interface/pyusb_v2_backend.py:72 | The single search returns the first device of the full search, or None when the full search finds nothing |
| UsbBus.FindFirstNone | pyocd/probe/pydapaccess/interface/pyusb_v2_backend.py:72-75 | The single search returns None exactly when no device on the bus matches |
| Backend.LocateInterface | pyocd/probe/pydapaccess/interface/pyusb_v2_backend.py:72-94 | The device lookup of `open`. A binding it returns names a matching device from the bus. That device's configuration was read and has an interface with the bound number and at least two endpoints, of which the first is bound as OUT and the second as IN |
| Backend.LocateFailsOnlyByCount | pyocd/probe/pydapaccess/interface/pyusb_v2_backend.py:72-94 | Descriptors read the same twice, so after the matcher has accepted a device, `open` can fail only with "not found" or "missing endpoints" |
| Backend.LocateNotFound | pyocd/probe/pydapaccess/interface/pyusb_v2_backend.py:72-75 | `open` reports "device not found" exactly when no device on the bus matches |
| Backend.LocateBindsByPosition | pyocd/probe/pydapaccess/interface/pyusb_v2_backend.py:72-94 | `open` takes the first matching device and its first CMSIS-DAP interface. It succeeds exactly when that interface has at least two endpoints. It binds endpoint 0 as OUT and endpoint 1 as IN, and endpoint 2 as SWO exactly when a third exists |
| Backend.ZeroPad | pyocd/probe/pydapaccess/interface/pyusb_v2_backend.py:196-197 | The padded report is the data followed by zeros, up to the report size. When the data is already longer, it is unchanged |
| Backend.FirstMarker | pyocd/probe/pydapaccess/interface/pyusb_v2_backend.py:216-218 | Gives the position of the first terminal marker in the queue (its length if there is none); every entry before it is a chunk |
| Backend.Concat | pyocd/probe/pydapaccess/interface/pyusb_v2_backend.py:215-219 | The bytes `read_swo` accumulates from a queue. Markers add nothing: a queue that holds only markers joins to no bytes. `ConcatAppend` and `Scenarios.ConcatEntries` make it the front-to-back join of the chunks |
| Backend.ConcatAppend | pyocd/probe/pydapaccess/interface/pyusb_v2_backend.py:215-219 | Joining a queue's chunks in two pieces gives the same bytes as joining them at once |
| Backend.PyUSBv2.constructor | pyocd/probe/pydapaccess/interface/pyusb_v2_backend.py:44-62 | A new session is closed and holds no handle. It has no thread, no permit, empty queues and packet size 512, and no permit has been released or consumed yet |
| Backend.PyUSBv2.NewBoard | pyocd/probe/pydapaccess/interface/pyusb_v2_backend.py:179-184 | Each discovered board is a fresh, closed session carrying the device's VID, PID, product, manufacturer and serial number |
| Backend.PyUSBv2.GetAllConnectedInterfaces | pyocd/probe/pydapaccess/interface/pyusb_v2_backend.py:166-187 | Discovery returns one fresh, closed session per matching device, in bus order, each describing its device |
| Backend.PyUSBv2.HasSwoEp | pyocd/probe/pydapaccess/interface/pyusb_v2_backend.py:64-66 | `has_swo_ep`: whether an SWO endpoint is bound. It is false on a closed session. On an open one it is true exactly when the interface has a third endpoint (`Open` with `LocateBindsByPosition`) |
| Backend.PyUSBv2.Open | pyocd/probe/pydapaccess/interface/pyusb_v2_backend.py:68-111 | The result is the lookup's error if the lookup fails, ClaimFailed if the claim raises, success otherwise. Every failure is a DeviceError. Any failure leaves the session closed with every handle unchanged. Success binds the located endpoints, device and interface number, and starts the receive thread with an empty response queue and a flushed IN endpoint |
| Backend.PyUSBv2.OpenWithFreshPermits | pyocd/probe/pydapaccess/interface/pyusb_v2_backend.py:68-127 | The corrected `open` of the finding below. It has the same result and the same effect as `open`, except that a session that opens starts with zero permits |
| Backend.PyUSBv2.Commit | pyocd/probe/pydapaccess/interface/pyusb_v2_backend.py:102-111 | Stores the binding, marks the session open and starts the receive thread |
| Backend.PyUSBv2.StartRx | pyocd/probe/pydapaccess/interface/pyusb_v2_backend.py:113-127 | The flush discards every report still queued on the IN endpoint. The receive thread then starts at the top of its loop with its stop event clear |
| Backend.PyUSBv2.ProbeSends | pyocd/probe/pydapaccess/interface/pyusb_v2_backend.py:149 | The probe appends one report to what the IN endpoint holds |
| Backend.PyUSBv2.ProbeTraces | pyocd/probe/pydapaccess/interface/pyusb_v2_backend.py:158 | The probe appends one chunk to what the SWO endpoint holds |
| Backend.PyUSBv2.RxStep | pyocd/probe/pydapaccess/interface/pyusb_v2_backend.py:144-152 | One step of the receive thread: test the stop event, acquire a permit (only when one is free), test the event again, read one report. A read appends the oldest IN report, or on a timeout or a missing endpoint ends the thread with the None marker. The thread exits with the marker when the event is set, and the permit accounting is kept |
| Backend.PyUSBv2.StartSwo | pyocd/probe/pydapaccess/interface/pyusb_v2_backend.py:129-135 | Starts the SWO thread at the top of its loop with a fresh stop event and sets is_swo_running |
| Backend.PyUSBv2.SwoRxStep | pyocd/probe/pydapaccess/interface/pyusb_v2_backend.py:154-163 | One step of the SWO thread. A read appends the oldest SWO chunk. A timeout is swallowed. A missing endpoint ends the thread with the marker, and so does a set stop event |
| Backend.PyUSBv2.StopSwo | pyocd/probe/pydapaccess/interface/pyusb_v2_backend.py:137-142 | Without a started SWO thread, the stop event is None and stop_swo raises (SwoNotStarted), changing nothing. Otherwise the join terminates. The thread finishes at most the read it is in and leaves exactly one marker. Afterwards there is no thread, no event and is_swo_running is false |
| Backend.PyUSBv2.Write | pyocd/probe/pydapaccess/interface/pyusb_v2_backend.py:189-201 | Write pads to ep_out's wMaxPacketSize, or to packet_size when ep_out is None. The padded report is the data followed by zeros. Write releases exactly one permit, and it raises when ep_out is None |
| Backend.PyUSBv2.Read | pyocd/probe/pydapaccess/interface/pyusb_v2_backend.py:204-211 | On a non-empty queue, read pops and returns the head report. On the marker it raises ReadThreadExited and leaves the queue unchanged |
| Backend.PyUSBv2.ReadSwo | pyocd/probe/pydapaccess/interface/pyusb_v2_backend.py:213-221 | With no marker queued, read_swo returns every queued chunk joined in order and empties the queue; on an empty queue it returns empty bytes. Otherwise it raises SwoThreadExited, drops the chunks before the marker and leaves the marker at the head |
| Backend.PyUSBv2.SetPacketCount | pyocd/probe/pydapaccess/interface/pyusb_v2_backend.py:223-225 | The packet count becomes the given value |
| Backend.PyUSBv2.SetPacketSize | pyocd/probe/pydapaccess/interface/pyusb_v2_backend.py:227-228 | The packet size becomes the given value, so it is the report size whenever ep_out is None |
| Backend.PyUSBv2.StopRx | pyocd/probe/pydapaccess/interface/pyusb_v2_backend.py:240-243 | Sets the stop event, releases one permit and joins the thread. The join terminates, the thread leaves the marker, and it consumes at most that permit and finishes at most the read it is in |
| Backend.PyUSBv2.Close | pyocd/probe/pydapaccess/interface/pyusb_v2_backend.py:233-253 | Close stops SWO first when it runs, then the receive thread, whose marker ends rcv_data. Afterwards both queues are empty, every handle is None, the session is closed and no thread remains |
| Backend.PyUSBv2.Forget | pyocd/probe/pydapaccess/interface/pyusb_v2_backend.py:244-253 | Empties both queues and resets every endpoint, device and thread handle to None |
| Scenarios.ConcatEntries | pyocd/probe/pydapaccess/interface/pyusb_v2_backend.py:215-219 | Joining a queue of chunks agrees with the front-to-back join of the chunk list |
| Scenarios.WritesAreAnsweredInOrder | pyocd/probe/pydapaccess/interface/pyusb_v2_backend.py:113-152 | N writes followed by N probe replies are read back as exactly those replies in write order. Reports queued before `open` are flushed and never reach the caller |
| Scenarios.ReadAfterExitKeepsFailing | pyocd/probe/pydapaccess/interface/pyusb_v2_backend.py:144-152 | After the receive thread's read times out, the first and the second `read` both raise ReadThreadExited |
| Scenarios.SwoWithoutEndpointFails | pyocd/probe/pydapaccess/interface/pyusb_v2_backend.py:129-163 | On a two-endpoint device has_swo_ep is false, but start_swo still runs a thread. That thread dies on its first read and the next read_swo raises SwoThreadExited |
| Scenarios.IdleReopenLosesReader | pyocd/probe/pydapaccess/interface/pyusb_v2_backend.py:233-253 | As written: close a session while its thread waits for an unanswered command, then open it again. The new receive thread gets the permit left over from `close`. By the time a later command is answered, that thread has timed out and exited, so `read` raises ReadThreadExited |
| Scenarios.FreshReopenAnswers | pyocd/probe/pydapaccess/interface/pyusb_v2_backend.py:113-127 | The same run with `OpenWithFreshPermits`: the idle thread stays blocked in `acquire`, and the reply to the later command is read back |
| Scenarios.TraceIsJoinedInOrder | pyocd/probe/pydapaccess/interface/pyusb_v2_backend.py:154-163 | Chunks the SWO thread has received come back from one read_swo joined in arrival order. A second read_swo returns empty bytes |

## Left out

- The device strings are not modelled as reads that can fail. `serial_number` is read outside the matcher's `try` (line 301, filtered searches only), and `get_all_connected_interfaces` reads `product`, `manufacturer` and `serial_number` unprotected (lines 182-184). pyusb reads each of them from the device, so a failure there would escape from `usb.core.find`, and so from `open` and from discovery. These strings are plain values here, so the model never raises that error.
- The pyusb calls are not modelled: `usb.core.find`, `get_active_configuration`, `find_descriptor`, `get_string`, `claim_interface`, `release_interface`, `dispose_resources` and the endpoint transfers. They are replaced by values: the bus sequence, the descriptor datatypes, the `claimSucceeds` parameter and the endpoint pipes. Errors from `release_interface` and `dispose_resources` are not modelled.
- Real threads, the OS scheduler, `threading.Event` and `threading.Semaphore` are not modelled. The threads are step methods. The event is a boolean. The semaphore is a counter its holder decrements only when it is positive.
- Timeouts (1 ms in the flush, 10 s in the threads) are not modelled as durations. A timeout is a read that finds its pipe empty.
- Reads are not truncated to `wMaxPacketSize`. A report on a pipe is what one read returns.
- Logging, the `IS_AVAILABLE` import guard and the `NoBackendError` fallback of `get_all_connected_interfaces` are not modelled.
- The contents of `CMSIS_DAP_USB_CLASSES` are not part of this model. The accepted class set is a parameter.
- The matcher catches only the four exception kinds it names. The model has no other kinds. An error from the first `get_active_configuration`, or from a name read, makes the device not match.
- `open` reads the descriptors again. The two reads are assumed to agree, so its "no CMSIS-DAP interface" and raw-descriptor-error results cannot happen after a match (`Backend.LocateFailsOnlyByCount`).
- `kernel_driver_was_attached` is set but never used in this file. `get_serial_number` is a plain getter. Neither is modelled.
- Backend.PyUSBv2.Read: it models only what happens once the queue is non-empty (`requires |rcvData| > 0`). The busy wait before that point is not a step of the model.
- Backend.PyUSBv2.Write: the caller's list is modelled as a value. `padded` is the list after the call, and the aliasing of the in-place append is not modelled. A transfer error raised by `ep_out.write` is not modelled.
- Backend.PyUSBv2.StopSwo: without a running SWO thread it fails with SwoNotStarted and changes nothing, as `None.set()` raising at line 138 does in the source. The AttributeError's traceback is not modelled.
- Backend.PyUSBv2.StartSwo: it requires that no SWO thread exists. Calling `start_swo` twice would orphan the first thread, and the model does not cover that.
- Backend.PyUSBv2.Close: the precondition `Valid()` excludes a `close` without a preceding `open`, just as the source's `assert self.closed is False` does.

## Findings

| source | as written | input that shows it | evidently intended | confidence | as-written member | corrected member |
|---|---|---|---|---|---|---|
| pyocd/probe/pydapaccess/interface/pyusb_v2_backend.py:60 | `read_sem` is created once, in `__init__`. Each `write` adds a permit, and `close` adds one more to wake the receive thread. Nothing consumes that extra permit when the thread is not blocked in `acquire`, for example while it is waiting in a read. `open` never resets the counter, so the permit carries over into the next session. The new receive thread takes it and starts a read that no command asked for | Open, write a command the probe does not answer, and close while the thread waits in that read. Then open again, stay idle past the 10 s read timeout, write a command and read its answer: the read raises "read thread exited unexpectedly" | Each session starts with no permits, so every read of the receive thread pairs with one `write` | likely; not executed | Scenarios.IdleReopenLosesReader | Backend.PyUSBv2.OpenWithFreshPermits, Scenarios.FreshReopenAnswers |

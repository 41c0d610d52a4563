/** The CMSIS-DAP v2 transport `PyUSBv2`: session lifecycle, endpoint binding,
    the command receive thread gated by a permit counter, the SWO receive
    thread, and the caller-facing write/read/read_swo operations.

    The two background threads are modelled as explicit atomic steps
    (`RxStep`, `SwoRxStep`) over a program counter; any interleaving of those
    steps with the caller's operations is a run of the model. What the probe
    has queued on the IN and SWO endpoints is held in `inPipe` and `swoPipe`;
    a read on an empty endpoint stands for the read timing out. */
module Backend {
  import opened Usb
  import opened Matcher
  import opened UsbBus

  /** The exceptions the backend raises: the first six are DeviceError, the
      last three an exception pyusb or Python raises on its own. */
  datatype Error =
    | DeviceNotFound                       // open: no device matched
    | NoCmsisDapInterface                  // open: no interface named CMSIS-DAP
    | MissingEndpoints                     // open: fewer than two endpoints
    | ClaimFailed                          // open: claim_interface raised USBError
    | ReadThreadExited                     // read: the receive thread left its marker
    | SwoThreadExited                      // read_swo: the SWO thread left its marker
    | DescriptorFailure(cause: AccessError) // open: a pyusb exception let through unchanged
    | NoOutEndpoint                        // write: ep_out is None (AttributeError)
    | SwoNotStarted                        // stop_swo: swo_stop_event is None (AttributeError)

  predicate IsDeviceError(e: Error)
  {
    !e.DescriptorFailure? && !e.NoOutEndpoint? && !e.SwoNotStarted?
  }

  /** What `open` commits once every check has passed. */
  datatype Binding = Binding(
    dev: Device,
    intfNumber: nat,
    epOut: Endpoint,
    epIn: Endpoint,
    epSwo: Option<Endpoint>)

  /** Lines 72-94 of `open`: find the device, its CMSIS-DAP interface and its
      endpoints by position (0 = OUT, 1 = IN, optional 2 = SWO). */
  function LocateInterface(bus: seq<Device>, serial: Option<string>, classes: set<byte>): (r: Result<Binding, Error>)
    ensures r.Success? ==> r.value.dev in bus && HasCmsisDapv2Interface(serial).Matches(r.value.dev, classes)
    ensures r.Success? ==>
              && r.value.dev.config.ActiveConfiguration?
              && exists itf :: itf in r.value.dev.config.interfaces && r.value.intfNumber == itf.bInterfaceNumber &&
                   2 <= |itf.endpoints| && r.value.epOut == itf.endpoints[0] && r.value.epIn == itf.endpoints[1]
  {
    match FindFirst(bus, HasCmsisDapv2Interface(serial), classes)
    case None => Failure(DeviceNotFound)
    case Some(dev) =>
      match dev.config
      case ConfigFailed(e) => Failure(DescriptorFailure(e))
      case ActiveConfiguration(ifs) =>
        match FindInterface(ifs)
        case Failure(e) => Failure(DescriptorFailure(e))
        case Success(None) => Failure(NoCmsisDapInterface)
        case Success(Some(itf)) =>
          var eps := itf.endpoints;
          if |eps| < 2 then Failure(MissingEndpoints)
          else Success(Binding(dev, itf.bInterfaceNumber, eps[0], eps[1],
                               if |eps| > 2 then Some(eps[2]) else None))
  }

  /** With descriptors that read the same twice (once by the matcher, once by
      `open`), the device `find` returns always has its CMSIS-DAP interface:
      `open` fails only for want of a device or of endpoints. */
  lemma LocateFailsOnlyByCount(bus: seq<Device>, serial: Option<string>, classes: set<byte>)
    ensures var r := LocateInterface(bus, serial, classes);
              r.Failure? ==> r.error == DeviceNotFound || r.error == MissingEndpoints
  {
    var found := FindFirst(bus, HasCmsisDapv2Interface(serial), classes);
    if found.Some? {
      var k := MatchesSound(HasCmsisDapv2Interface(serial), found.value, classes);
      FindInterfaceAt(found.value.config.interfaces, k);
    }
  }

  /** `open` reports DeviceNotFound exactly when no device on the bus matches. */
  lemma LocateNotFound(bus: seq<Device>, serial: Option<string>, classes: set<byte>)
    ensures LocateInterface(bus, serial, classes) == Failure(DeviceNotFound) <==>
              forall d :: d in bus ==> !HasCmsisDapv2Interface(serial).Matches(d, classes)
  {
    FindFirstNone(bus, HasCmsisDapv2Interface(serial), classes);
  }

  /** When a device matches, `open` binds the first matching device and its
      first CMSIS-DAP interface k: it fails with MissingEndpoints if k has fewer
      than two endpoints, and otherwise binds them by position. */
  lemma LocateBindsByPosition(bus: seq<Device>, serial: Option<string>, classes: set<byte>) returns (k: int)
    requires FindAll(bus, HasCmsisDapv2Interface(serial), classes) != []
    ensures FindAll(bus, HasCmsisDapv2Interface(serial), classes)[0].config.ActiveConfiguration?
    ensures var dev := FindAll(bus, HasCmsisDapv2Interface(serial), classes)[0];
            var ifs := dev.config.interfaces;
            var r := LocateInterface(bus, serial, classes);
              0 <= k < |ifs| && NoneNamedBefore(ifs, k) && NameMatches(ifs[k]) == Success(true) &&
              (r.Success? <==> |ifs[k].endpoints| >= 2) &&
              (r.Failure? ==> r.error == MissingEndpoints) &&
              (r.Success? ==>
                 var eps := ifs[k].endpoints;
                 r.value.dev == dev &&
                 r.value.intfNumber == ifs[k].bInterfaceNumber &&
                 r.value.epOut == eps[0] && r.value.epIn == eps[1] &&
                 (r.value.epSwo.Some? <==> |eps| > 2) &&
                 (r.value.epSwo.Some? ==> r.value.epSwo.value == eps[2]))
  {
    var m := HasCmsisDapv2Interface(serial);
    FindFirstIsFirstOfFindAll(bus, m, classes);
    var dev := FindAll(bus, m, classes)[0];
    k := MatchesSound(m, dev, classes);
    FindInterfaceAt(dev.config.interfaces, k);
  }

  function Max(a: int, b: int): int
  {
    if a < b then b else a
  }

  /** The padding loop of `write`: append a zero byte `reportSize - |data|`
      times (no times when that is negative). */
  method ZeroPad(data: Bytes, reportSize: int) returns (padded: Bytes)
    ensures |padded| == Max(|data|, reportSize)
    ensures padded[..|data|] == data
    ensures forall i :: |data| <= i < |padded| ==> padded[i] == 0
  {
    padded := data;
    var n := reportSize - |data|;
    var k := 0;
    while k < n
      invariant 0 <= k && (0 <= n ==> k <= n) && (n < 0 ==> k == 0)
      invariant |padded| == |data| + k
      invariant padded[..|data|] == data
      invariant forall i :: |data| <= i < |padded| ==> padded[i] == 0
    {
      padded := padded + [0];
      k := k + 1;
    }
  }

  /** Position of the first terminal marker in a queue, or its length. */
  function FirstMarker(q: seq<Option<Bytes>>): (k: nat)
    ensures k <= |q|
    ensures forall i :: 0 <= i < k ==> q[i].Some?
    ensures k < |q| ==> q[k].None?
  {
    if q == [] || q[0].None? then 0 else 1 + FirstMarker(q[1..])
  }

  /** The bytes of the queued chunks joined in arrival order; markers add nothing. */
  function Concat(q: seq<Option<Bytes>>): (r: Bytes)
    ensures (forall i :: 0 <= i < |q| ==> q[i].None?) ==> r == []
  {
    if q == [] then []
    else Concat(q[..|q| - 1]) + (match q[|q| - 1] case Some(c) => c case None => [])
  }

  /** Draining a queue in two pieces yields the bytes of draining it at once. */
  lemma {:induction false} ConcatAppend(a: seq<Option<Bytes>>, b: seq<Option<Bytes>>)
    ensures Concat(a + b) == Concat(a) + Concat(b)
    decreases |b|
  {
    if b == [] {
      assert a + b == a;
    } else {
      var init := b[..|b| - 1];
      var last := match b[|b| - 1] case Some(c) => c case None => [];
      assert (a + b)[..|a + b| - 1] == a + init;
      assert (a + b)[|a + b| - 1] == b[|b| - 1];
      assert Concat(b) == Concat(init) + last;
      ConcatAppend(a, init);
      assert Concat(a + b) == Concat(a + init) + last;
    }
  }


  /** Program counter of the command receive thread `rx_task`. */
  datatype RxPc =
    | RxLoopHead    // about to test the stop event at the top of the loop
    | RxAcquiring   // in read_sem.acquire()
    | RxAcquired    // holds a permit, about to test the stop event again
    | RxReading     // in ep_in.read()

  datatype RxWorker = NoRxThread | RxRunning(pc: RxPc) | RxExited

  /** Program counter of the SWO receive thread `swo_rx_task`. */
  datatype SwoPc =
    | SwoLoopHead   // about to test the stop event
    | SwoReading    // in ep_swo.read()

  datatype SwoWorker = NoSwoThread | SwoRunning(pc: SwoPc) | SwoExited

  /** Steps a stopped receive thread still takes before it exits. */
  function RxRank(w: RxWorker): nat
  {
    match w
    case RxRunning(RxAcquiring) => 3
    case RxRunning(RxAcquired) => 2
    case RxRunning(RxReading) => 2
    case RxRunning(RxLoopHead) => 1
    case _ => 0
  }

  function SwoRank(w: SwoWorker): nat
  {
    match w
    case SwoRunning(SwoReading) => 2
    case SwoRunning(SwoLoopHead) => 1
    case _ => 0
  }

  class PyUSBv2 {
    // Attributes discovery fills in.
    var vid: nat
    var pid: nat
    var productName: Option<string>
    var vendorName: Option<string>
    var serialNumber: Option<string>

    // The session.
    var epOut: Option<Endpoint>
    var epIn: Option<Endpoint>
    var epSwo: Option<Endpoint>
    var dev: Option<Device>
    var intfNumber: Option<nat>
    var closed: bool
    var packetSize: int
    var packetCount: Option<int>

    // The command receive thread, its stop event, the permit counter read_sem
    // and the response queue rcv_data (None is the terminal marker).
    var rxThread: RxWorker
    var rxStop: bool
    var readSem: nat
    var rcvData: seq<Option<Bytes>>

    // The SWO receive thread, its stop event and the trace queue swo_data.
    var swoThread: SwoWorker
    var swoStop: bool
    var isSwoRunning: bool
    var swoData: seq<Option<Bytes>>

    // What the probe has queued on the IN and SWO endpoints and the host has not read.
    var inPipe: seq<Bytes>
    var swoPipe: seq<Bytes>

    // Every permit ever released, every report ever appended to rcv_data.
    ghost var permitsReleased: nat
    ghost var reportsReceived: nat

    /** Permits the receive thread holds: one between acquire and the end of its read. */
    function PermitsHeld(): nat
      reads this
    {
      if rxThread == RxRunning(RxAcquired) || rxThread == RxRunning(RxReading) then 1 else 0
    }

    /** The response queue holds reports followed by at most one marker, which
        is there exactly when the receive thread has exited; the thread never
        reads without a permit: reports received, free and held permits
        together never exceed the permits released. */
    ghost predicate RxValid()
      reads this
    {
      && (rcvData == [] || None !in rcvData[..|rcvData| - 1])
      && (rxThread == RxExited <==> |rcvData| > 0 && rcvData[|rcvData| - 1].None?)
      && reportsReceived + readSem + PermitsHeld() <= permitsReleased
    }

    /** is_swo_running tells whether a SWO thread object exists; an exited SWO
        thread has left its marker at the end of the trace queue. */
    ghost predicate SwoValid()
      reads this
    {
      && (isSwoRunning <==> swoThread != NoSwoThread)
      && (swoThread == SwoExited ==> |swoData| > 0 && swoData[|swoData| - 1].None?)
    }

    /** A closed session holds no handle, no receive thread and no responses;
        an open one holds all its handles and a receive thread. */
    ghost predicate Valid()
      reads this
    {
      && RxValid()
      && SwoValid()
      && (closed ==>
            epOut.None? && epIn.None? && epSwo.None? && dev.None? && intfNumber.None? &&
            rxThread == NoRxThread && rcvData == [])
      && (!closed ==>
            epOut.Some? && epIn.Some? && dev.Some? && intfNumber.Some? && rxThread != NoRxThread)
    }

    /** `__init__`. */
    constructor ()
      ensures Valid() && closed
      ensures epOut.None? && epIn.None? && epSwo.None? && dev.None? && intfNumber.None?
      ensures serialNumber.None? && productName.None? && vendorName.None? && vid == 0 && pid == 0
      ensures rxThread == NoRxThread && !rxStop && readSem == 0 && rcvData == []
      ensures swoThread == NoSwoThread && !swoStop && !isSwoRunning && swoData == []
      ensures packetSize == 512 && packetCount.None?
      ensures inPipe == [] && swoPipe == []
      ensures permitsReleased == 0 && reportsReceived == 0
    {
      vid, pid := 0, 0;
      productName, vendorName, serialNumber := None, None, None;
      epOut, epIn, epSwo := None, None, None;
      dev, intfNumber := None, None;
      closed := true;
      packetSize, packetCount := 512, None;
      rxThread, rxStop, readSem, rcvData := NoRxThread, false, 0, [];
      swoThread, swoStop, isSwoRunning, swoData := NoSwoThread, false, false, [];
      inPipe, swoPipe := [], [];
      permitsReleased, reportsReceived := 0, 0;
    }

    /** `has_swo_ep`. */
    function HasSwoEp(): (r: bool)
      reads this
      ensures Valid() && closed ==> !r
    {
      epSwo.Some?
    }

    /** The identity discovery copies from a device. */
    ghost predicate Describes(d: Device)
      reads this
    {
      vid == d.idVendor && pid == d.idProduct && productName == d.product &&
      vendorName == d.manufacturer && serialNumber == d.serialNumber
    }

    /** The body of the discovery loop: a fresh backend carrying the device's identity. */
    static method NewBoard(d: Device) returns (board: PyUSBv2)
      ensures fresh(board) && board.Valid() && board.closed && board.Describes(d)
    {
      board := new PyUSBv2();
      board.vid := d.idVendor;
      board.pid := d.idProduct;
      board.productName := d.product;
      board.vendorName := d.manufacturer;
      board.serialNumber := d.serialNumber;
    }

    /** `get_all_connected_interfaces`: one fresh closed backend per matching
        device on the bus, in bus order, carrying that device's identity. */
    static method GetAllConnectedInterfaces(bus: seq<Device>, classes: set<byte>) returns (boards: seq<PyUSBv2>)
      ensures var found := FindAll(bus, HasCmsisDapv2Interface(None), classes);
                |boards| == |found| &&
                forall i :: 0 <= i < |boards| ==>
                  fresh(boards[i]) && boards[i].Valid() && boards[i].closed && boards[i].Describes(found[i])
    {
      var found := FindAll(bus, HasCmsisDapv2Interface(None), classes);
      boards := [];
      var i := 0;
      while i < |found|
        invariant 0 <= i <= |found| && |boards| == i
        invariant forall j :: 0 <= j < i ==>
                    fresh(boards[j]) && boards[j].Valid() && boards[j].closed && boards[j].Describes(found[j])
      {
        var board := NewBoard(found[i]);
        boards := boards + [board];
        i := i + 1;
      }
    }

    /** `open`: `bus` is what the host stack enumerates and `claimSucceeds`
        whether `claim_interface` returns normally. On any failure nothing is
        committed and the session stays closed. */
    method Open(bus: seq<Device>, classes: set<byte>, claimSucceeds: bool) returns (r: Outcome<Error>)
      requires Valid() && closed
      modifies this`epOut, this`epIn, this`epSwo, this`dev, this`intfNumber, this`closed,
               this`rxThread, this`rxStop, this`inPipe
      ensures Valid()
      ensures var loc := LocateInterface(bus, serialNumber, classes);
                r == if loc.Failure? then Fail(loc.error)
                     else if !claimSucceeds then Fail(ClaimFailed)
                     else Pass
      ensures r.Fail? ==> IsDeviceError(r.error)
      ensures r.Fail? ==>
                closed && epOut == old(epOut) && epIn == old(epIn) && epSwo == old(epSwo) &&
                dev == old(dev) && intfNumber == old(intfNumber) && rxThread == old(rxThread) &&
                rxStop == old(rxStop) && inPipe == old(inPipe)
      ensures r.Pass? ==>
                var b := LocateInterface(bus, serialNumber, classes).value;
                  && dev == Some(b.dev) && intfNumber == Some(b.intfNumber)
                  && epOut == Some(b.epOut) && epIn == Some(b.epIn) && epSwo == b.epSwo
                  && !closed && rxThread == RxRunning(RxLoopHead) && !rxStop
                  && inPipe == [] && rcvData == []
    {
      LocateFailsOnlyByCount(bus, serialNumber, classes);
      var loc := LocateInterface(bus, serialNumber, classes);
      if loc.Failure? {
        return Fail(loc.error);
      }
      if !claimSucceeds {
        return Fail(ClaimFailed);
      }
      Commit(loc.value);
      r := Pass;
    }

    /** `open` as evidently intended: like `open`, but a session that opens
        starts without permits (a new `Semaphore(0)` in `start_rx`), so no
        permit released by an earlier `close` reaches the new receive thread. */
    method OpenWithFreshPermits(bus: seq<Device>, classes: set<byte>, claimSucceeds: bool) returns (r: Outcome<Error>)
      requires Valid() && closed
      modifies this`epOut, this`epIn, this`epSwo, this`dev, this`intfNumber, this`closed,
               this`rxThread, this`rxStop, this`inPipe, this`readSem
      ensures Valid()
      ensures var loc := LocateInterface(bus, serialNumber, classes);
                r == if loc.Failure? then Fail(loc.error)
                     else if !claimSucceeds then Fail(ClaimFailed)
                     else Pass
      ensures r.Fail? ==>
                closed && epOut == old(epOut) && epIn == old(epIn) && epSwo == old(epSwo) &&
                dev == old(dev) && intfNumber == old(intfNumber) && rxThread == old(rxThread) &&
                rxStop == old(rxStop) && inPipe == old(inPipe) && readSem == old(readSem)
      ensures r.Pass? ==>
                var b := LocateInterface(bus, serialNumber, classes).value;
                  && dev == Some(b.dev) && intfNumber == Some(b.intfNumber)
                  && epOut == Some(b.epOut) && epIn == Some(b.epIn) && epSwo == b.epSwo
                  && !closed && rxThread == RxRunning(RxLoopHead) && !rxStop
                  && inPipe == [] && rcvData == [] && readSem == 0
    {
      r := Open(bus, classes, claimSucceeds);
      if r.Pass? {
        readSem := 0;
      }
    }

    /** Lines 103-111 of `open`: store the binding, mark the session open and
        start receiving. */
    method Commit(b: Binding)
      requires Valid() && closed
      modifies this`epOut, this`epIn, this`epSwo, this`dev, this`intfNumber, this`closed,
               this`rxThread, this`rxStop, this`inPipe
      ensures Valid()
      ensures dev == Some(b.dev) && intfNumber == Some(b.intfNumber)
      ensures epOut == Some(b.epOut) && epIn == Some(b.epIn) && epSwo == b.epSwo
      ensures !closed && rxThread == RxRunning(RxLoopHead) && !rxStop && inPipe == [] && rcvData == []
    {
      epOut, epIn, epSwo := Some(b.epOut), Some(b.epIn), b.epSwo;
      dev, intfNumber := Some(b.dev), Some(b.intfNumber);
      closed := false;
      StartRx();
    }

    /** `start_rx`: discard whatever the IN endpoint still holds (read with a
        1 ms timeout until the read times out), then start the receive thread. */
    method StartRx()
      requires RxValid() && rxThread == NoRxThread && rcvData == []
      modifies this`inPipe, this`rxStop, this`rxThread
      ensures RxValid()
      ensures inPipe == [] && !rxStop && rxThread == RxRunning(RxLoopHead)
    {
      while inPipe != []
        decreases |inPipe|
      {
        inPipe := inPipe[1..];
      }
      rxStop := false;
      rxThread := RxRunning(RxLoopHead);
    }

    /** The probe puts a report on the IN endpoint (the device side, not part of the backend). */
    method ProbeSends(report: Bytes)
      modifies this`inPipe
      ensures inPipe == old(inPipe) + [report]
    {
      inPipe := inPipe + [report];
    }

    /** The probe puts a trace chunk on the SWO endpoint (the device side). */
    method ProbeTraces(chunk: Bytes)
      modifies this`swoPipe
      ensures swoPipe == old(swoPipe) + [chunk]
    {
      swoPipe := swoPipe + [chunk];
    }

    /** One atomic step of `rx_task`. A read that raises (the IN endpoint stayed
        empty until the timeout, or ep_in is None) ends the thread, and the
        `finally` clause appends the marker. */
    method RxStep()
      requires RxValid()
      modifies this`rcvData, this`rxThread, this`readSem, this`inPipe, this`reportsReceived
      ensures RxValid()
      ensures !old(rxThread).RxRunning? ==>
                rxThread == old(rxThread) && rcvData == old(rcvData) && readSem == old(readSem) &&
                inPipe == old(inPipe) && reportsReceived == old(reportsReceived)
      ensures old(rxThread) == RxRunning(RxLoopHead) ==>
                readSem == old(readSem) && inPipe == old(inPipe) && reportsReceived == old(reportsReceived) &&
                if rxStop then rxThread == RxExited && rcvData == old(rcvData) + [None]
                else rxThread == RxRunning(RxAcquiring) && rcvData == old(rcvData)
      ensures old(rxThread) == RxRunning(RxAcquiring) ==>
                rcvData == old(rcvData) && inPipe == old(inPipe) && reportsReceived == old(reportsReceived) &&
                if old(readSem) > 0 then rxThread == RxRunning(RxAcquired) && readSem == old(readSem) - 1
                else rxThread == old(rxThread) && readSem == old(readSem)
      ensures old(rxThread) == RxRunning(RxAcquired) ==>
                rcvData == old(rcvData) && readSem == old(readSem) && inPipe == old(inPipe) &&
                reportsReceived == old(reportsReceived) &&
                rxThread == if rxStop then RxRunning(RxLoopHead) else RxRunning(RxReading)
      ensures old(rxThread) == RxRunning(RxReading) ==>
                readSem == old(readSem) &&
                if epIn.Some? && old(inPipe) != [] then
                  rxThread == RxRunning(RxLoopHead) && rcvData == old(rcvData) + [Some(old(inPipe)[0])] &&
                  inPipe == old(inPipe)[1..] && reportsReceived == old(reportsReceived) + 1
                else
                  rxThread == RxExited && rcvData == old(rcvData) + [None] &&
                  inPipe == old(inPipe) && reportsReceived == old(reportsReceived)
    {
      if rxThread.RxRunning? {
        assert rcvData != [] ==> rcvData[|rcvData| - 1].Some?;
        match rxThread.pc
        case RxLoopHead =>
          if rxStop {
            rcvData := rcvData + [None];
            rxThread := RxExited;
          } else {
            rxThread := RxRunning(RxAcquiring);
          }
        case RxAcquiring =>
          if readSem > 0 {
            readSem := readSem - 1;
            rxThread := RxRunning(RxAcquired);
          }
        case RxAcquired =>
          rxThread := if rxStop then RxRunning(RxLoopHead) else RxRunning(RxReading);
        case RxReading =>
          if epIn.Some? && inPipe != [] {
            rcvData := rcvData + [Some(inPipe[0])];
            inPipe := inPipe[1..];
            reportsReceived := reportsReceived + 1;
            rxThread := RxRunning(RxLoopHead);
          } else {
            rcvData := rcvData + [None];
            rxThread := RxExited;
          }
      }
    }

    /** `start_swo`. It does not look at has_swo_ep. */
    method StartSwo()
      requires SwoValid() && swoThread == NoSwoThread
      modifies this`swoStop, this`swoThread, this`isSwoRunning
      ensures SwoValid()
      ensures !swoStop && swoThread == SwoRunning(SwoLoopHead) && isSwoRunning
    {
      swoStop := false;
      swoThread := SwoRunning(SwoLoopHead);
      isSwoRunning := true;
    }

    /** One atomic step of `swo_rx_task`. A read on an empty SWO endpoint times
        out with USBError, which the loop swallows; with ep_swo None the read
        raises AttributeError, which ends the thread. The marker is appended on
        exit. */
    method SwoRxStep()
      requires SwoValid()
      modifies this`swoData, this`swoThread, this`swoPipe
      ensures SwoValid()
      ensures !old(swoThread).SwoRunning? ==>
                swoThread == old(swoThread) && swoData == old(swoData) && swoPipe == old(swoPipe)
      ensures old(swoThread) == SwoRunning(SwoLoopHead) ==>
                swoPipe == old(swoPipe) &&
                if swoStop then swoThread == SwoExited && swoData == old(swoData) + [None]
                else swoThread == SwoRunning(SwoReading) && swoData == old(swoData)
      ensures old(swoThread) == SwoRunning(SwoReading) ==>
                if epSwo.None? then
                  swoThread == SwoExited && swoData == old(swoData) + [None] && swoPipe == old(swoPipe)
                else if old(swoPipe) == [] then
                  swoThread == SwoRunning(SwoLoopHead) && swoData == old(swoData) && swoPipe == old(swoPipe)
                else
                  swoThread == SwoRunning(SwoLoopHead) && swoData == old(swoData) + [Some(old(swoPipe)[0])] &&
                  swoPipe == old(swoPipe)[1..]
    {
      if swoThread.SwoRunning? {
        match swoThread.pc
        case SwoLoopHead =>
          if swoStop {
            swoData := swoData + [None];
            swoThread := SwoExited;
          } else {
            swoThread := SwoRunning(SwoReading);
          }
        case SwoReading =>
          if epSwo.None? {
            swoData := swoData + [None];
            swoThread := SwoExited;
          } else if swoPipe != [] {
            swoData := swoData + [Some(swoPipe[0])];
            swoPipe := swoPipe[1..];
            swoThread := SwoRunning(SwoLoopHead);
          } else {
            swoThread := SwoRunning(SwoLoopHead);
          }
      }
    }

    /** `stop_swo`: set the stop event, join the thread, drop it. The thread
        may finish the read it is in; it always leaves its marker. Without a
        thread there is no stop event either, and setting it raises. */
    method StopSwo() returns (r: Outcome<Error>)
      requires SwoValid()
      modifies this`swoStop, this`swoThread, this`swoData, this`swoPipe, this`isSwoRunning
      ensures SwoValid()
      ensures swoThread == NoSwoThread && !isSwoRunning
      ensures r == if old(swoThread) == NoSwoThread then Fail(SwoNotStarted) else Pass
      ensures r.Fail? ==> swoStop == old(swoStop) && swoData == old(swoData) && swoPipe == old(swoPipe)
      ensures r.Pass? ==>
                var caught := old(swoThread) == SwoRunning(SwoReading) && epSwo.Some? && old(swoPipe) != [];
                  !swoStop &&
                  swoData == old(swoData) + (if caught then [Some(old(swoPipe)[0])] else [])
                                          + (if old(swoThread).SwoRunning? then [None] else []) &&
                  swoPipe == if caught then old(swoPipe)[1..] else old(swoPipe)
    {
      if swoThread == NoSwoThread {
        return Fail(SwoNotStarted);
      }
      ghost var start := swoThread;
      ghost var caught := swoThread == SwoRunning(SwoReading) && epSwo.Some? && swoPipe != [];
      ghost var tail: seq<Option<Bytes>> := if caught then [Some(swoPipe[0])] else [];
      ghost var rest := if caught then swoPipe[1..] else swoPipe;
      swoStop := true;
      while swoThread.SwoRunning?
        invariant SwoValid() && swoStop && swoThread != NoSwoThread
        invariant swoThread == SwoRunning(SwoReading) ==>
                    swoThread == start && swoData == old(swoData) && swoPipe == old(swoPipe)
        invariant swoThread == SwoRunning(SwoLoopHead) ==>
                    swoData == old(swoData) + tail && swoPipe == rest
        invariant swoThread == SwoExited ==>
                    swoData == old(swoData) + tail + (if start.SwoRunning? then [None] else []) &&
                    swoPipe == rest
        decreases SwoRank(swoThread)
      {
        SwoRxStep();
      }
      swoThread := NoSwoThread;
      swoStop := false;
      isSwoRunning := false;
      r := Pass;
    }

    /** `write`: zero-pad the report to the report size, release one permit and
        hand the padded report to ep_out. `padded` is the caller's list after
        the call (the source pads it in place). */
    method Write(data: Bytes) returns (padded: Bytes, r: Outcome<Error>)
      requires Valid()
      modifies this`readSem, this`permitsReleased
      ensures Valid()
      ensures readSem == old(readSem) + 1 && permitsReleased == old(permitsReleased) + 1
      ensures |padded| == Max(|data|, if epOut.Some? then epOut.value.wMaxPacketSize else packetSize)
      ensures padded[..|data|] == data
      ensures forall i :: |data| <= i < |padded| ==> padded[i] == 0
      ensures r == if epOut.Some? then Pass else Fail(NoOutEndpoint)
    {
      var reportSize := packetSize;
      if epOut.Some? {
        reportSize := epOut.value.wMaxPacketSize;
      }
      padded := ZeroPad(data, reportSize);
      readSem := readSem + 1;
      permitsReleased := permitsReleased + 1;
      if epOut.None? {
        return padded, Fail(NoOutEndpoint);
      }
      r := Pass;
    }

    /** `read`, once its busy wait has seen a non-empty queue: pop the oldest
        report, or raise on the marker and leave it in place. */
    method Read() returns (r: Result<Bytes, Error>)
      requires Valid() && |rcvData| > 0
      modifies this`rcvData
      ensures Valid()
      ensures old(rcvData)[0].None? ==> r == Failure(ReadThreadExited) && rcvData == old(rcvData)
      ensures old(rcvData)[0].Some? ==> r == Success(old(rcvData)[0].value) && rcvData == old(rcvData)[1..]
    {
      if rcvData[0].None? {
        return Failure(ReadThreadExited);
      }
      r := Success(rcvData[0].value);
      rcvData := rcvData[1..];
    }

    /** `read_swo`: pop and join every queued chunk without blocking. On the
        marker it raises; the chunks popped before it are lost and the marker
        stays at the head. */
    method ReadSwo() returns (r: Result<Bytes, Error>)
      requires SwoValid()
      modifies this`swoData
      ensures SwoValid()
      ensures var k := FirstMarker(old(swoData));
                swoData == old(swoData)[k..] &&
                r == if k == |old(swoData)| then Success(Concat(old(swoData))) else Failure(SwoThreadExited)
    {
      ghost var q := swoData;
      ghost var i := 0;
      var data: Bytes := [];
      while |swoData| > 0
        invariant 0 <= i <= FirstMarker(q)
        invariant swoData == q[i..]
        invariant data == Concat(q[..i])
        invariant SwoValid()
        decreases |swoData|
      {
        if swoData[0].None? {
          return Failure(SwoThreadExited);
        }
        assert q[..i + 1][..i] == q[..i];
        data := data + swoData[0].value;
        swoData := swoData[1..];
        i := i + 1;
      }
      assert q[..i] == q;
      r := Success(data);
    }

    /** `set_packet_count`. */
    method SetPacketCount(count: int)
      modifies this`packetCount
      ensures packetCount == Some(count)
    {
      packetCount := Some(count);
    }

    /** `set_packet_size`. */
    method SetPacketSize(size: int)
      modifies this`packetSize
      ensures packetSize == size
    {
      packetSize := size;
    }

    /** The receive-thread part of `close`: set the stop event, release one
        permit so a thread blocked in acquire wakes, and join the thread. With
        the event set it exits within three steps, consuming at most that
        permit and finishing at most the read it is in. */
    method StopRx()
      requires RxValid() && rxThread != NoRxThread
      modifies this`rcvData, this`rxThread, this`rxStop, this`readSem, this`inPipe,
               this`permitsReleased, this`reportsReceived
      ensures RxValid() && rxThread == RxExited && rxStop
      ensures permitsReleased == old(permitsReleased) + 1
      ensures readSem == old(readSem) + (if old(rxThread) == RxRunning(RxAcquiring) then 0 else 1)
      ensures inPipe == if old(rxThread) == RxRunning(RxReading) && epIn.Some? && old(inPipe) != [] then old(inPipe)[1..]
                        else old(inPipe)
    {
      rxStop := true;
      readSem := readSem + 1;
      permitsReleased := permitsReleased + 1;
      ghost var start := rxThread;
      ghost var sem0 := readSem;
      while rxThread.RxRunning?
        invariant RxValid() && rxStop && rxThread != NoRxThread
        invariant rxThread == RxRunning(RxAcquiring) ==> rxThread == start && readSem == sem0
        invariant rxThread == RxRunning(RxReading) ==> rxThread == start && inPipe == old(inPipe)
        invariant readSem == sem0 - (if start == RxRunning(RxAcquiring) && rxThread != start then 1 else 0)
        invariant inPipe == if start == RxRunning(RxReading) && rxThread != start && epIn.Some? && old(inPipe) != []
                            then old(inPipe)[1..] else old(inPipe)
        invariant RxRank(rxThread) <= RxRank(start)
        invariant permitsReleased == old(permitsReleased) + 1
        decreases RxRank(rxThread)
      {
        RxStep();
      }
    }

    /** `close`: stop SWO if it runs, stop the receive thread (set its event,
        release one permit, join it), check it left its marker, clear both
        queues and forget every handle. */
    method Close()
      requires Valid() && !closed
      modifies this`closed, this`epOut, this`epIn, this`epSwo, this`dev, this`intfNumber,
               this`rxThread, this`rxStop, this`readSem, this`rcvData, this`inPipe,
               this`swoThread, this`swoStop, this`isSwoRunning, this`swoData, this`swoPipe,
               this`permitsReleased, this`reportsReceived
      ensures Valid() && closed
      ensures rcvData == [] && swoData == []
      ensures epOut.None? && epIn.None? && epSwo.None? && dev.None? && intfNumber.None?
      ensures rxThread == NoRxThread && rxStop
      ensures swoThread == NoSwoThread && !isSwoRunning
      ensures old(swoThread) == NoSwoThread ==> swoPipe == old(swoPipe) && swoStop == old(swoStop)
      ensures old(swoThread) != NoSwoThread ==> !swoStop
      ensures permitsReleased == old(permitsReleased) + 1
      ensures readSem == old(readSem) + (if old(rxThread) == RxRunning(RxAcquiring) then 0 else 1)
      ensures inPipe == if old(rxThread) == RxRunning(RxReading) && old(inPipe) != [] then old(inPipe)[1..]
                        else old(inPipe)
    {
      if isSwoRunning {
        var stopped := StopSwo();
      }
      assert SwoValid() && swoThread == NoSwoThread && !isSwoRunning;
      assert old(swoThread) == NoSwoThread ==> swoPipe == old(swoPipe) && swoStop == old(swoStop);
      assert old(swoThread) != NoSwoThread ==> !swoStop;
      closed := true;
      StopRx();
      assert rcvData[|rcvData| - 1] == None;

      Forget();
    }

    /** The end of `close`: empty both queues, release the interface and
        dispose of the device (left to the host stack), reset every handle. */
    method Forget()
      modifies this`rcvData, this`swoData, this`epOut, this`epIn, this`epSwo, this`dev,
               this`intfNumber, this`rxThread
      ensures rcvData == [] && swoData == []
      ensures epOut.None? && epIn.None? && epSwo.None? && dev.None? && intfNumber.None?
      ensures rxThread == NoRxThread
    {
      rcvData := [];
      swoData := [];
      epOut, epIn, epSwo := None, None, None;
      dev, intfNumber := None, None;
      rxThread := NoRxThread;
    }
  }
}

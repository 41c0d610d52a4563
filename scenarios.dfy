/** Client runs of the backend that exhibit its end-to-end promises: what a
    caller observes after a given interleaving of its own calls, the probe's
    replies and the receive threads' steps. */
module Scenarios {
  import opened Usb
  import opened Backend

  /** Chunks joined front to back. */
  function Flatten(chunks: seq<Bytes>): Bytes
  {
    if chunks == [] then [] else chunks[0] + Flatten(chunks[1..])
  }

  /** Each chunk wrapped as a queue entry. */
  function Entries(chunks: seq<Bytes>): (q: seq<Option<Bytes>>)
    ensures |q| == |chunks|
    ensures forall i :: 0 <= i < |q| ==> q[i] == Some(chunks[i])
  {
    if chunks == [] then [] else [Some(chunks[0])] + Entries(chunks[1..])
  }

  /** Joining the trace queue agrees with joining the chunks front to back. */
  lemma {:induction false} ConcatEntries(chunks: seq<Bytes>)
    ensures Concat(Entries(chunks)) == Flatten(chunks)
  {
    if chunks != [] {
      var rest := Entries(chunks[1..]);
      assert Entries(chunks) == [Some(chunks[0])] + rest;
      ConcatEntries(chunks[1..]);
      ConcatAppend([Some(chunks[0])], rest);
      assert [Some(chunks[0])][..0] == [];
      assert Concat([Some(chunks[0])]) == chunks[0];
    }
  }

  /** An open session whose command receive thread waits at the top of its loop. */
  ghost predicate Listening(s: PyUSBv2)
    reads s
  {
    s.Valid() && !s.closed && s.epIn.Some? && s.rxThread == RxRunning(RxLoopHead) && !s.rxStop
  }

  /** The thread blocked in `acquire`, waiting for a permit. */
  ghost predicate Blocked(s: PyUSBv2)
    reads s
  {
    s.Valid() && !s.closed && s.epIn.Some? && s.rxThread == RxRunning(RxAcquiring) && !s.rxStop
  }

  /** The probe queues `stale` on the IN endpoint, then the session is opened. */
  method OpenAfterStale(bus: seq<Device>, classes: set<byte>, stale: seq<Bytes>) returns (s: PyUSBv2)
    requires LocateInterface(bus, None, classes).Success?
    ensures fresh(s) && Listening(s) && s.rcvData == [] && s.inPipe == [] && s.readSem == 0
    ensures s.serialNumber.None?
    ensures s.epSwo == LocateInterface(bus, None, classes).value.epSwo
    ensures s.SwoValid() && s.swoThread == NoSwoThread && s.swoData == [] && s.swoPipe == []
  {
    s := new PyUSBv2();
    for i := 0 to |stale|
      invariant s.Valid() && s.closed && s.serialNumber.None? && s.readSem == 0
      invariant s.swoThread == NoSwoThread && s.swoData == [] && s.swoPipe == []
    {
      s.ProbeSends(stale[i]);
    }
    var status := s.Open(bus, classes, true);
  }

  /** `write` of every command in turn: one permit each, nothing received. */
  method IssueWrites(s: PyUSBv2, commands: seq<Bytes>)
    requires Listening(s) && s.rcvData == []
    modifies s
    ensures Listening(s) && s.rcvData == [] && s.inPipe == old(s.inPipe)
    ensures s.readSem == old(s.readSem) + |commands|
  {
    for i := 0 to |commands|
      invariant Listening(s) && s.rcvData == [] && s.inPipe == old(s.inPipe)
      invariant s.readSem == old(s.readSem) + i
    {
      var padded, sent := s.Write(commands[i]);
    }
  }

  /** The probe answers with `replies`, queued on the IN endpoint in order. */
  method ProbeAnswers(s: PyUSBv2, replies: seq<Bytes>)
    requires Listening(s)
    modifies s
    ensures Listening(s) && s.rcvData == old(s.rcvData) && s.readSem == old(s.readSem)
    ensures s.inPipe == old(s.inPipe) + replies
  {
    for i := 0 to |replies|
      invariant Listening(s) && s.rcvData == old(s.rcvData) && s.readSem == old(s.readSem)
      invariant s.inPipe == old(s.inPipe) + replies[..i]
    {
      s.ProbeSends(replies[i]);
      assert replies[..i + 1] == replies[..i] + [replies[i]];
    }
    assert replies[..|replies|] == replies;
  }

  /** One turn of the receive loop with a permit available and a report waiting:
      the report is appended to the response queue. */
  method ReceiveOne(s: PyUSBv2)
    requires Listening(s) && s.readSem > 0 && s.inPipe != []
    modifies s
    ensures Listening(s) && s.readSem == old(s.readSem) - 1
    ensures s.rcvData == old(s.rcvData) + [Some(old(s.inPipe)[0])] && s.inPipe == old(s.inPipe)[1..]
  {
    s.RxStep();
    s.RxStep();
    s.RxStep();
    s.RxStep();
  }

  /** One turn of the receive loop with a permit available and nothing
      arriving: the read times out and the thread exits after queueing None. */
  method TimeOutOnce(s: PyUSBv2)
    requires Listening(s) && s.readSem > 0 && s.inPipe == []
    modifies s
    ensures s.Valid() && s.rxThread == RxExited && s.rcvData == old(s.rcvData) + [None]
  {
    s.RxStep();
    s.RxStep();
    s.RxStep();
    s.RxStep();
  }

  /** `n` turns of the receive loop, each with a permit and a report. */
  method ReceiveMany(s: PyUSBv2, n: nat)
    requires Listening(s) && s.readSem >= n && |s.inPipe| >= n
    modifies s
    ensures Listening(s) && s.readSem == old(s.readSem) - n
    ensures s.rcvData == old(s.rcvData) + Entries(old(s.inPipe)[..n]) && s.inPipe == old(s.inPipe)[n..]
  {
    for i := 0 to n
      invariant Listening(s) && s.readSem == old(s.readSem) - i
      invariant s.rcvData == old(s.rcvData) + Entries(old(s.inPipe)[..i]) && s.inPipe == old(s.inPipe)[i..]
    {
      ReceiveOne(s);
      assert old(s.inPipe)[..i + 1] == old(s.inPipe)[..i] + [old(s.inPipe)[i]];
      assert Entries(old(s.inPipe)[..i + 1]) == Entries(old(s.inPipe)[..i]) + [Some(old(s.inPipe)[i])];
    }
  }

  /** `n` calls of `read`, each popping the head of the response queue. */
  method ReadMany(s: PyUSBv2, n: nat) returns (answers: seq<Result<Bytes, Error>>)
    requires s.Valid() && n <= |s.rcvData|
    requires forall k :: 0 <= k < n ==> s.rcvData[k].Some?
    modifies s
    ensures s.Valid() && s.rcvData == old(s.rcvData)[n..]
    ensures |answers| == n && forall k :: 0 <= k < n ==> answers[k] == Success(old(s.rcvData)[k].value)
  {
    answers := [];
    for i := 0 to n
      invariant s.Valid() && s.rcvData == old(s.rcvData)[i..]
      invariant |answers| == i && forall k :: 0 <= k < i ==> answers[k] == Success(old(s.rcvData)[k].value)
    {
      var a := s.Read();
      answers := answers + [a];
    }
  }

  /** A command the probe never answers, then `close` while the receive thread
      still waits in that read: the permit `close` releases is never consumed
      and stays in `read_sem`. */
  method AbandonCommand(s: PyUSBv2, command: Bytes)
    requires Listening(s) && s.rcvData == [] && s.inPipe == [] && s.readSem == 0
    requires s.serialNumber.None? && s.swoThread == NoSwoThread
    modifies s
    ensures s.Valid() && s.closed && s.readSem == 1 && s.inPipe == []
    ensures s.serialNumber.None? && s.swoThread == NoSwoThread
  {
    var padded, sent := s.Write(command);
    s.RxStep();
    s.RxStep();
    s.RxStep();
    s.Close();
  }

  /** `open` again, as written: the stale permit is still there. */
  method Reopen(s: PyUSBv2, bus: seq<Device>, classes: set<byte>)
    requires LocateInterface(bus, None, classes).Success?
    requires s.Valid() && s.closed && s.serialNumber.None? && s.inPipe == []
    modifies s
    ensures Listening(s) && s.readSem == old(s.readSem) && s.rcvData == [] && s.inPipe == []
  {
    var status := s.Open(bus, classes, true);
  }

  /** `open` again with the corrected `open`: no permit is left. */
  method ReopenFresh(s: PyUSBv2, bus: seq<Device>, classes: set<byte>)
    requires LocateInterface(bus, None, classes).Success?
    requires s.Valid() && s.closed && s.serialNumber.None? && s.inPipe == []
    modifies s
    ensures Listening(s) && s.readSem == 0 && s.rcvData == [] && s.inPipe == []
  {
    var status := s.OpenWithFreshPermits(bus, classes, true);
  }

  /** A thread that has exited receives nothing more, whatever is written and
      whatever the probe sends. */
  method WriteToExited(s: PyUSBv2, command: Bytes, reply: Bytes)
    requires s.Valid() && s.rxThread == RxExited
    modifies s
    ensures s.Valid() && s.rcvData == old(s.rcvData)
  {
    var padded, sent := s.Write(command);
    s.ProbeSends(reply);
    s.RxStep();
    s.RxStep();
    s.RxStep();
  }

  /** Without a permit the idle thread stays blocked in `acquire`. */
  method IdleWithoutPermit(s: PyUSBv2)
    requires Listening(s) && s.readSem == 0
    modifies s
    ensures Blocked(s) && s.readSem == 0 && s.rcvData == old(s.rcvData) && s.inPipe == old(s.inPipe)
  {
    s.RxStep();
    s.RxStep();
    s.RxStep();
    s.RxStep();
  }

  /** A write releases a permit; the probe answers it. */
  method WriteAnswered(s: PyUSBv2, command: Bytes, reply: Bytes)
    requires Blocked(s) && s.readSem == 0 && s.inPipe == []
    modifies s
    ensures Blocked(s) && s.readSem == 1 && s.inPipe == [reply] && s.rcvData == old(s.rcvData)
  {
    var padded, sent := s.Write(command);
    s.ProbeSends(reply);
  }

  /** The woken thread takes the permit and reads the answer. */
  method WakeAndReceive(s: PyUSBv2)
    requires Blocked(s) && s.readSem == 1 && |s.inPipe| == 1
    modifies s
    ensures s.Valid() && s.rcvData == old(s.rcvData) + [Some(old(s.inPipe)[0])]
  {
    s.RxStep();
    s.RxStep();
    s.RxStep();
  }

  /** The session closed by `AbandonCommand` is opened again and left idle past
      the read timeout; then a command is written, the probe answers it, and
      the thread has time for a full turn of its loop. As written, the stale
      permit sends the new thread into a read that times out, the thread
      exits, and the answer is never read: `read` raises. */
  method IdleReopenLosesReader(bus: seq<Device>, classes: set<byte>, first: Bytes,
                               command: Bytes, reply: Bytes)
    returns (r: Result<Bytes, Error>)
    requires LocateInterface(bus, None, classes).Success?
    ensures r == Failure(ReadThreadExited)
  {
    var s := OpenAfterStale(bus, classes, []);
    AbandonCommand(s, first);
    Reopen(s, bus, classes);
    TimeOutOnce(s);
    WriteToExited(s, command, reply);
    r := s.Read();
  }

  /** The same run with the corrected `open`: the idle thread stays blocked in
      `acquire`, and the reply to the new command is read back. */
  method FreshReopenAnswers(bus: seq<Device>, classes: set<byte>, first: Bytes,
                            command: Bytes, reply: Bytes)
    returns (r: Result<Bytes, Error>)
    requires LocateInterface(bus, None, classes).Success?
    ensures r == Success(reply)
  {
    var s := OpenAfterStale(bus, classes, []);
    AbandonCommand(s, first);
    ReopenFresh(s, bus, classes);
    IdleWithoutPermit(s);
    WriteAnswered(s, command, reply);
    WakeAndReceive(s);
    r := s.Read();
  }

  /** N writes issued before any read, answered by N probe reports, are read back
      as exactly those N reports in order; reports the probe queued on the IN
      endpoint before `open` never reach the caller. */
  method WritesAreAnsweredInOrder(bus: seq<Device>, classes: set<byte>, stale: seq<Bytes>,
                                  commands: seq<Bytes>, replies: seq<Bytes>)
    returns (answers: seq<Result<Bytes, Error>>)
    requires LocateInterface(bus, None, classes).Success?
    requires |commands| == |replies|
    ensures |answers| == |replies|
    ensures forall i :: 0 <= i < |replies| ==> answers[i] == Success(replies[i])
  {
    var s := OpenAfterStale(bus, classes, stale);
    IssueWrites(s, commands);
    ProbeAnswers(s, replies);
    assert s.inPipe == replies;
    ReceiveMany(s, |replies|);
    assert replies[..|replies|] == replies;
    answers := ReadMany(s, |replies|);
  }

  /** Once the receive thread has exited (here: its read timed out), every
      `read` raises, the second as well as the first. */
  method ReadAfterExitKeepsFailing(bus: seq<Device>, classes: set<byte>, command: Bytes)
    returns (first: Result<Bytes, Error>, second: Result<Bytes, Error>)
    requires LocateInterface(bus, None, classes).Success?
    ensures first == Failure(ReadThreadExited) && second == Failure(ReadThreadExited)
  {
    var s := OpenAfterStale(bus, classes, []);
    IssueWrites(s, [command]);
    TimeOutOnce(s);
    first := s.Read();
    second := s.Read();
  }

  /** On a device with only two endpoints has_swo_ep is false, yet `start_swo`
      still starts a thread; that thread dies on its first read and the next
      `read_swo` raises. */
  method SwoWithoutEndpointFails(bus: seq<Device>, classes: set<byte>)
    returns (hasSwo: bool, r: Result<Bytes, Error>)
    requires LocateInterface(bus, None, classes).Success?
    requires LocateInterface(bus, None, classes).value.epSwo.None?
    ensures !hasSwo && r == Failure(SwoThreadExited)
  {
    var s := OpenAfterStale(bus, classes, []);
    hasSwo := s.HasSwoEp();
    s.StartSwo();
    s.SwoRxStep();
    s.SwoRxStep();
    r := s.ReadSwo();
  }

  /** The SWO thread, started on a session whose probe then emits `chunks`. */
  method TraceReceived(bus: seq<Device>, classes: set<byte>, chunks: seq<Bytes>) returns (s: PyUSBv2)
    requires LocateInterface(bus, None, classes).Success?
    requires LocateInterface(bus, None, classes).value.epSwo.Some?
    ensures fresh(s) && s.SwoValid() && s.swoData == Entries(chunks)
  {
    s := OpenAfterStale(bus, classes, []);
    s.StartSwo();
    for i := 0 to |chunks|
      invariant s.SwoValid() && s.epSwo.Some? && s.swoThread == SwoRunning(SwoLoopHead) && !s.swoStop
      invariant s.swoData == [] && s.swoPipe == chunks[..i]
    {
      s.ProbeTraces(chunks[i]);
      assert chunks[..i + 1] == chunks[..i] + [chunks[i]];
    }
    assert chunks[..|chunks|] == chunks;
    for i := 0 to |chunks|
      invariant s.SwoValid() && s.epSwo.Some? && s.swoThread == SwoRunning(SwoLoopHead) && !s.swoStop
      invariant s.swoData == Entries(chunks[..i]) && s.swoPipe == chunks[i..]
    {
      s.SwoRxStep();
      s.SwoRxStep();
      assert chunks[..i + 1] == chunks[..i] + [chunks[i]];
      assert Entries(chunks[..i + 1]) == Entries(chunks[..i]) + [Some(chunks[i])];
    }
    assert chunks[..|chunks|] == chunks;
  }

  /** Trace chunks the SWO thread has received are handed over by one
      `read_swo` as their concatenation in arrival order, and a second
      `read_swo` finds nothing. */
  method TraceIsJoinedInOrder(bus: seq<Device>, classes: set<byte>, chunks: seq<Bytes>)
    returns (r: Result<Bytes, Error>, again: Result<Bytes, Error>)
    requires LocateInterface(bus, None, classes).Success?
    requires LocateInterface(bus, None, classes).value.epSwo.Some?
    ensures r == Success(Flatten(chunks)) && again == Success([])
  {
    var s := TraceReceived(bus, classes, chunks);
    ConcatEntries(chunks);
    r := s.ReadSwo();
    again := s.ReadSwo();
  }
}

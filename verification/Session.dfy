/**
  Bounded capture of a child process and the output side of `run_session`
  (src/orbenchlab/agent_sessions.py).

  The child and the scheduler are nondeterministic: `Child` holds what the child would write to each
  pipe, and a list of `Event`s says what `select`, `os.read`, `os.write` and the clock did, in order.
  */
module Session {
  import opened Options
  import opened Redactor

  datatype Stream = Stdout | Stderr

  datatype Failure = LaunchError | WallClockTimeout | OutputLimitExceeded | AgentExitNonzero

  /** `exitCode` is what `returncode` reads after the wait; `waitTimesOut` says whether the wait expired. */
  datatype Child = Child(launches: bool, out: Bytes, err: Bytes, exitCode: Option<int>, waitTimesOut: bool)

  datatype Event =
    | Deadline
    | StdinAccepts(written: nat)
    | StdinBroken
    | WouldBlock(stream: Stream)
    | Readable(stream: Stream, available: nat)

  const READ_SIZE := 65_536

  function Min(a: nat, b: nat): nat { if a < b then a else b }

  /** `os.read(fd, request)` on a pipe that still holds `rest`: empty only at end of file. */
  function ReadPipe(rest: Bytes, available: nat, request: nat): (chunk: Bytes)
    requires request > 0
    ensures chunk <= rest && |chunk| <= request
    ensures chunk == [] <==> rest == []
  {
    var size := Min(Min(Max(available, 1), request), |rest|);
    rest[..size]
  }

  /** The two `.live` files and their redactors: the closure `write_live` and its variables. */
  class LiveFiles {
    const outRedactor: StreamingSecretRedactor
    const errRedactor: StreamingSecretRedactor
    var outFile: Bytes
    var errFile: Bytes

    ghost predicate Valid()
      reads this, outRedactor, errRedactor
    {
      && outRedactor != errRedactor
      && outRedactor.Valid() && errRedactor.Valid()
      && outFile == outRedactor.emitted && errFile == errRedactor.emitted
    }

    constructor (secrets: seq<Bytes>)
      ensures Valid() && fresh(outRedactor) && fresh(errRedactor)
      ensures outRedactor.active == errRedactor.active == Active(secrets)
      ensures outRedactor.fed == errRedactor.fed == []
    {
      var first := new StreamingSecretRedactor(secrets);
      var second := new StreamingSecretRedactor(secrets);
      outRedactor, errRedactor := first, second;
      outFile, errFile := [], [];
    }

    method WriteLive(name: Stream, chunk: Bytes)
      requires Valid()
      modifies this, outRedactor, errRedactor
      ensures Valid()
      ensures outRedactor.fed == old(outRedactor.fed) + (if name == Stdout then chunk else [])
      ensures errRedactor.fed == old(errRedactor.fed) + (if name == Stderr then chunk else [])
    {
      if name == Stdout {
        var more := outRedactor.Feed(chunk, false);
        outFile := outFile + more;
      } else {
        var more := errRedactor.Feed(chunk, false);
        errFile := errFile + more;
      }
    }

    /** The final `feed(b"", final=True)` of both streams. */
    method Flush()
      requires Valid()
      modifies this, outRedactor, errRedactor
      ensures outFile == Redacted(outRedactor.active, old(outRedactor.fed))
      ensures errFile == Redacted(errRedactor.active, old(errRedactor.fed))
    {
      var more := outRedactor.Feed([], true);
      assert outRedactor.fed == old(outRedactor.fed);
      outFile := outFile + more;
      more := errRedactor.Feed([], true);
      assert errRedactor.fed == old(errRedactor.fed);
      errFile := errFile + more;
    }
  }

  /** How often `stream` was offered for reading. */
  function Polls(events: seq<Event>, stream: Stream): nat {
    if events == [] then 0
    else
      Polls(events[..|events| - 1], stream)
      + (if events[|events| - 1].Readable? && events[|events| - 1].stream == stream then 1 else 0)
  }

  lemma PollsAppend(events: seq<Event>, event: Event, stream: Stream)
    ensures Polls(events + [event], stream)
      == Polls(events, stream) + (if event.Readable? && event.stream == stream then 1 else 0)
  {
  }

  /** How often stdin accepted bytes, and how many it could have accepted in all. */
  function Offers(events: seq<Event>): nat {
    if events == [] then 0
    else Offers(events[..|events| - 1]) + (if events[|events| - 1].StdinAccepts? then 1 else 0)
  }

  function Accepted(events: seq<Event>): nat {
    if events == [] then 0
    else
      var last := events[|events| - 1];
      Accepted(events[..|events| - 1]) + (if last.StdinAccepts? then Min(last.written, READ_SIZE) else 0)
  }

  lemma AcceptedAppend(events: seq<Event>, event: Event)
    ensures Offers(events + [event]) == Offers(events) + (if event.StdinAccepts? then 1 else 0)
    ensures Accepted(events + [event])
      == Accepted(events) + (if event.StdinAccepts? then Min(event.written, READ_SIZE) else 0)
  {
  }

  /** Stdin was written whole, or the child closed it. */
  ghost predicate StdinServed(events: seq<Event>, stdinSize: nat) {
    StdinBroken in events || (Offers(events) > 0 && Accepted(events) >= stdinSize)
  }

  /** One pipe during the capture: what was captured so far, and whether the pipe is still registered. */
  datatype Pipe = Pipe(captured: Bytes, open: bool)

  /** `total` is what the child writes to this pipe and `polls` how often it was offered. */
  ghost predicate Follows(pipe: Pipe, total: Bytes, polls: nat) {
    && pipe.captured <= total
    && (if pipe.open then polls <= |pipe.captured| else pipe.captured == total)
  }

  /** The body of the `select` loop for a readable pipe.  `over` means that the cap was exceeded. */
  method ReadReady(pipe: Pipe, total: Bytes, available: nat, room: nat, name: Stream, live: LiveFiles, ghost polls: nat)
    returns (pipe': Pipe, over: bool)
    requires pipe.open && Follows(pipe, total, polls) && live.Valid()
    modifies live, live.outRedactor, live.errRedactor
    ensures pipe.captured <= pipe'.captured <= total && |pipe'.captured| <= |pipe.captured| + room
    ensures !over ==> Follows(pipe', total, polls + 1)
    ensures over ==> |pipe'.captured| == |pipe.captured| + room < |total|
    ensures live.Valid()
    ensures name == Stdout ==> live.outRedactor.fed == old(live.outRedactor.fed) + pipe'.captured[|pipe.captured|..]
    ensures name == Stderr ==> live.errRedactor.fed == old(live.errRedactor.fed) + pipe'.captured[|pipe.captured|..]
    ensures name == Stdout ==> live.errRedactor.fed == old(live.errRedactor.fed)
    ensures name == Stderr ==> live.outRedactor.fed == old(live.outRedactor.fed)
  {
    var chunk := ReadPipe(total[|pipe.captured|..], available, Min(READ_SIZE, room + 1));
    if chunk == [] {
      return Pipe(pipe.captured, false), false;
    }
    over := |chunk| > room;
    var kept := if over then chunk[..room] else chunk;
    if kept != [] {
      live.WriteLive(name, kept);
    }
    pipe' := Pipe(pipe.captured + kept, true);
    assert pipe'.captured[|pipe.captured|..] == kept;
  }

  /** The variables of the `select` loop: the offset into stdin, and the pipes that are registered. */
  datatype Capture = Capture(inputOffset: nat, stdinOpen: bool, out: Pipe, err: Pipe)

  ghost predicate Bounded(c: Capture, child: Child, maxOutputBytes: nat) {
    && c.out.captured <= child.out && c.err.captured <= child.err
    && |c.out.captured| + |c.err.captured| <= maxOutputBytes
  }

  /** The capture after the events `seen`, none of which exceeded a limit. */
  ghost predicate Running(c: Capture, child: Child, stdinSize: nat, maxOutputBytes: nat, seen: seq<Event>) {
    && Bounded(c, child, maxOutputBytes)
    && Follows(c.out, child.out, Polls(seen, Stdout))
    && Follows(c.err, child.err, Polls(seen, Stderr))
    && (c.stdinOpen ==> !StdinServed(seen, stdinSize) && c.inputOffset == Min(stdinSize, Accepted(seen)))
  }

  ghost predicate Seen(live: LiveFiles, c: Capture)
    reads live, live.outRedactor, live.errRedactor
  {
    live.Valid() && live.outRedactor.fed == c.out.captured && live.errRedactor.fed == c.err.captured
  }

  /** A pipe that is ready for reading. */
  method HandleReadable(c: Capture, name: Stream, available: nat, child: Child, stdinSize: nat, maxOutputBytes: nat,
                        live: LiveFiles, ghost seen: seq<Event>)
    returns (c': Capture, over: bool)
    requires Running(c, child, stdinSize, maxOutputBytes, seen) && Seen(live, c)
    modifies live, live.outRedactor, live.errRedactor
    ensures Seen(live, c') && Bounded(c', child, maxOutputBytes)
    ensures !over ==> Running(c', child, stdinSize, maxOutputBytes, seen + [Readable(name, available)])
    ensures over ==>
      |c'.out.captured| + |c'.err.captured| == maxOutputBytes < |child.out| + |child.err|
  {
    c', over := c, false;
    PollsAppend(seen, Readable(name, available), Stdout);
    PollsAppend(seen, Readable(name, available), Stderr);
    AcceptedAppend(seen, Readable(name, available));
    var room := maxOutputBytes - |c.out.captured| - |c.err.captured|;
    if name == Stdout && c.out.open {
      var out;
      out, over := ReadReady(c.out, child.out, available, room, Stdout, live, Polls(seen, Stdout));
      c' := c.(out := out);
    } else if name == Stderr && c.err.open {
      var err;
      err, over := ReadReady(c.err, child.err, available, room, Stderr, live, Polls(seen, Stderr));
      c' := c.(err := err);
    }
  }

  /** One key of one `select` result.  `over` means that the cap was exceeded. */
  method HandleEvent(c: Capture, event: Event, child: Child, stdinSize: nat, maxOutputBytes: nat, live: LiveFiles,
                     ghost seen: seq<Event>)
    returns (c': Capture, over: bool)
    requires Running(c, child, stdinSize, maxOutputBytes, seen) && Seen(live, c)
    modifies live, live.outRedactor, live.errRedactor
    ensures Seen(live, c') && Bounded(c', child, maxOutputBytes)
    ensures !over ==> Running(c', child, stdinSize, maxOutputBytes, seen + [event])
    ensures over ==>
      |c'.out.captured| + |c'.err.captured| == maxOutputBytes < |child.out| + |child.err|
  {
    if event.Readable? {
      c', over := HandleReadable(c, event.stream, event.available, child, stdinSize, maxOutputBytes, live, seen);
      return;
    }
    c', over := c, false;
    PollsAppend(seen, event, Stdout);
    PollsAppend(seen, event, Stderr);
    AcceptedAppend(seen, event);
    match event
    case StdinAccepts(written) =>
      var offset := Min(stdinSize, c.inputOffset + Min(written, READ_SIZE));
      c' := c.(inputOffset := offset, stdinOpen := c.stdinOpen && offset < stdinSize);
    case StdinBroken =>
      c' := c.(inputOffset := stdinSize, stdinOpen := false);
    case _ =>
  }

  /** `_bounded_process`.  A script that runs out of events means that the deadline has passed. */
  method BoundedProcess(child: Child, events: seq<Event>, stdinSize: nat, maxOutputBytes: nat, live: LiveFiles)
    returns (stdout: Bytes, stderr: Bytes, exitCode: Option<int>, failure: Option<Failure>)
    requires live.Valid() && live.outRedactor.fed == live.errRedactor.fed == []
    modifies live, live.outRedactor, live.errRedactor
    // captured output is a bounded prefix of what the child wrote
    ensures stdout <= child.out && stderr <= child.err
    ensures |stdout| + |stderr| <= maxOutputBytes
    // the callback saw exactly the captured bytes of each stream
    ensures live.Valid() && live.outRedactor.fed == stdout && live.errRedactor.fed == stderr
    // what each outcome means
    ensures failure.None? ==> stdout == child.out && stderr == child.err && exitCode == Some(0)
    ensures failure == Some(OutputLimitExceeded) ==>
      |stdout| + |stderr| == maxOutputBytes < |child.out| + |child.err|
    ensures failure == Some(AgentExitNonzero) ==>
      stdout == child.out && stderr == child.err && exitCode != Some(0)
    ensures failure == Some(WallClockTimeout) ==>
      child.waitTimesOut || Deadline in events || !StdinServed(events, stdinSize)
      || Polls(events, Stdout) <= |child.out| || Polls(events, Stderr) <= |child.err|
    ensures failure == Some(LaunchError) <==> !child.launches
    ensures if child.launches then exitCode == child.exitCode else stdout == [] && stderr == [] && exitCode == None
    // a child that stays within the cap is captured whole if its pipes are polled often enough
    ensures
      && child.launches && !child.waitTimesOut && |child.out| + |child.err| <= maxOutputBytes
      && Deadline !in events && StdinServed(events, stdinSize)
      && Polls(events, Stdout) > |child.out| && Polls(events, Stderr) > |child.err|
      ==> failure == if child.exitCode == Some(0) then None else Some(AgentExitNonzero)
  {
    stdout, stderr, exitCode, failure := [], [], None, None;
    if !child.launches {
      failure := Some(LaunchError);
      return;
    }
    var c := Capture(0, true, Pipe([], true), Pipe([], true));
    var i := 0;
    while failure == None && (c.stdinOpen || c.out.open || c.err.open)
      invariant 0 <= i <= |events|
      invariant Seen(live, c) && Bounded(c, child, maxOutputBytes)
      invariant failure in {None, Some(WallClockTimeout), Some(OutputLimitExceeded)}
      invariant failure != Some(OutputLimitExceeded) ==> Running(c, child, stdinSize, maxOutputBytes, events[..i])
      invariant failure == Some(OutputLimitExceeded) ==>
        |c.out.captured| + |c.err.captured| == maxOutputBytes < |child.out| + |child.err|
      invariant failure == Some(WallClockTimeout) ==>
        && (c.stdinOpen || c.out.open || c.err.open)
        && (events[..i] == events || Deadline in events)
      decreases |events| - i, failure == None
    {
      if i == |events| || events[i] == Deadline {
        failure := Some(WallClockTimeout);
      } else {
        var over;
        c, over := HandleEvent(c, events[i], child, stdinSize, maxOutputBytes, live, events[..i]);
        assert events[..i + 1] == events[..i] + [events[i]];
        i := i + 1;
        if over {
          failure := Some(OutputLimitExceeded);
        }
      }
    }
    stdout, stderr := c.out.captured, c.err.captured;
    if child.waitTimesOut && failure == None {
      failure := Some(WallClockTimeout);
    }
    exitCode := child.exitCode;
    if failure == None && exitCode != Some(0) {
      failure := Some(AgentExitNonzero);
    }
  }

  /** What `run_session` leaves behind about the output of the child. */
  datatype Recorded = Recorded(stdoutLive: Bytes, stderrLive: Bytes, stdoutBin: Bytes, stderrBin: Bytes,
                               credentialRedacted: bool, completed: bool, failure: Option<Failure>)

  /** The sealed files are the redaction of `out` and `err`, and the flag says whether that replaced anything. */
  ghost predicate Seals(r: Recorded, secrets: set<Bytes>, out: Bytes, err: Bytes) {
    && r.stdoutBin == Redacted(secrets, out) && r.stderrBin == Redacted(secrets, err)
    && (r.credentialRedacted <==> Fires(secrets, out) || Fires(secrets, err))
  }

  /** `out` and `err` are prefixes of what the child wrote and together stay within the cap. */
  ghost predicate BoundedPrefixes(child: Child, maxOutputBytes: nat, out: Bytes, err: Bytes) {
    out <= child.out && err <= child.err && |out| + |err| <= maxOutputBytes
  }

  /** The output side of `run_session`: capture with live redaction, flush, then redact and seal. */
  method RecordSession(secrets: seq<Bytes>, child: Child, events: seq<Event>, stdinSize: nat, maxOutputBytes: nat)
    returns (r: Recorded)
    ensures r.stdoutLive == r.stdoutBin && r.stderrLive == r.stderrBin
    ensures exists out, err ::
      BoundedPrefixes(child, maxOutputBytes, out, err) && Seals(r, Active(secrets), out, err)
    ensures r.completed ==>
      child.launches && child.exitCode == Some(0) && Seals(r, Active(secrets), child.out, child.err)
  {
    var live := new LiveFiles(secrets);
    var stdout, stderr, exitCode, failure := BoundedProcess(child, events, stdinSize, maxOutputBytes, live);
    live.Flush();
    var stdoutBin, stdoutRedacted := RedactBytes(stdout, secrets);
    var stderrBin, stderrRedacted := RedactBytes(stderr, secrets);
    r := Recorded(live.outFile, live.errFile, stdoutBin, stderrBin, stdoutRedacted || stderrRedacted,
                  failure == None, failure);
    assert BoundedPrefixes(child, maxOutputBytes, stdout, stderr);
    assert Seals(r, Active(secrets), stdout, stderr);
  }
}

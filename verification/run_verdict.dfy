/**
What one bounded run returns (`apps/cli/src/bounded_run.rs`: `run_inner`,
`collect_fds`, `wait_for_exit`, `reap_within`), for every schedule of pipe reads,
exits, deadlines and cancels.

Everything the run observes is an input: the results of its reads, polls, waits
and clock checks, in the order it makes them. A schedule that runs out counts as
the deadline: every loop of the source is bounded by it.
*/
module RunVerdict {
  import opened Common

  const READ_PER_TURN: nat := 64 * 1024

  /** At most one buffer of bytes arrives in one read. */
  type Chunk = b: seq<byte> | 0 < |b| <= 8192 witness [0]

  datatype Read =
    | Data(bytes: Chunk)
    | Eof
    | WouldBlock
    | Interrupted
    | Broken   // any other error: the end of that output

  predicate Ends(r: Read) { r.Eof? || r.Broken? }

  /** Every byte a pipe yields before it ends. */
  function Written(script: seq<Read>): seq<byte> {
    if script == [] || Ends(script[0]) then []
    else (if script[0].Data? then script[0].bytes else []) + Written(script[1..])
  }

  /** The pipe does end: every writer let go of it. */
  predicate HasEnd(script: seq<Read>) {
    script != [] && (Ends(script[0]) || HasEnd(script[1..]))
  }

  /** One pipe: the reads still to come, every byte read from it, what was kept, whether it is open. */
  datatype Stream = Stream(script: seq<Read>, seen: seq<byte>, buffer: seq<byte>, open: bool)

  function Opened(script: seq<Read>): Stream { Stream(script, [], [], true) }

  /** Draining keeps the first `limit` bytes; otherwise everything is kept. */
  function Kept(seen: seq<byte>, limit: nat, drain: bool): seq<byte> {
    if drain then seen[..Min(limit, |seen|)] else seen
  }

  /** `s` is what reading from `script` can have led to. */
  predicate Follows(s: Stream, script: seq<Read>, limit: nat, drain: bool) {
    && s.buffer == Kept(s.seen, limit, drain)
    && (s.open ==> s.seen + Written(s.script) == Written(script) && (HasEnd(s.script) <==> HasEnd(script)))
    && (!s.open ==> s.seen == Written(script) && HasEnd(script))
  }

  lemma SeenIsPrefix(s: Stream, script: seq<Read>, limit: nat, drain: bool)
    requires Follows(s, script, limit, drain)
    ensures s.seen <= Written(script)
  {
  }

  lemma KeptGrows(seen: seq<byte>, more: seq<byte>, limit: nat)
    ensures var kept := Kept(seen, limit, true);
            var room := if limit < |kept| then 0 else limit - |kept|;
            Kept(seen + more, limit, true) == kept + more[..Min(|more|, room)]
  {
  }

  /** One read of an open stream. */
  function ReadOne(s: Stream, limit: nat, drain: bool): Stream
    requires s.open && s.script != []
  {
    var rest := s.script[1..];
    match s.script[0]
    case Eof => s.(script := rest, open := false)
    case Broken => s.(script := rest, open := false)
    case WouldBlock => s.(script := rest)
    case Interrupted => s.(script := rest)
    case Data(bytes) =>
      var room := if limit < |s.buffer| then 0 else limit - |s.buffer|;
      Stream(rest, s.seen + bytes, s.buffer + (if drain then bytes[..Min(|bytes|, room)] else bytes), true)
  }

  /** The first read of a script that goes on. */
  lemma FirstRead(script: seq<Read>)
    requires script != [] && !Ends(script[0])
    ensures Written(script) == (if script[0].Data? then script[0].bytes else []) + Written(script[1..])
    ensures HasEnd(script) <==> HasEnd(script[1..])
  {
  }

  lemma ReadDataFollows(s: Stream, script: seq<Read>, limit: nat, drain: bool)
    requires Follows(s, script, limit, drain) && s.open && s.script != [] && s.script[0].Data?
    ensures Follows(ReadOne(s, limit, drain), script, limit, drain)
  {
    var bytes, rest := s.script[0].bytes, s.script[1..];
    FirstRead(s.script);
    KeptGrows(s.seen, bytes, limit);
    assert s.seen + (bytes + Written(rest)) == (s.seen + bytes) + Written(rest);
  }

  lemma ReadOneFollows(s: Stream, script: seq<Read>, limit: nat, drain: bool)
    requires Follows(s, script, limit, drain) && s.open && s.script != []
    ensures Follows(ReadOne(s, limit, drain), script, limit, drain)
  {
    if s.script[0].Data? {
      ReadDataFollows(s, script, limit, drain);
    } else if !Ends(s.script[0]) {
      FirstRead(s.script);
      assert [] + Written(s.script[1..]) == Written(s.script[1..]);
    } else {
      assert s.seen + [] == s.seen;
    }
  }

  /**
  One stream's turn: read until it blocks, ends, or had its share. `over` when
  stdout passed the limit and the run is not draining.
  */
  method ReadTurn(before: Stream, stdout: bool, limit: nat, drain: bool, ghost script: seq<Read>)
    returns (s: Stream, over: bool)
    requires Follows(before, script, limit, drain)
    ensures Follows(s, script, limit, drain)
    ensures over ==> !drain && stdout && |s.buffer| > limit
    ensures !over && !drain && stdout && |before.buffer| <= limit ==> |s.buffer| <= limit
    ensures before.open && before.script != [] ==> |s.script| < |before.script|
    ensures !before.open || before.script == [] ==> s == before
  {
    s, over := before, false;
    var turn := 0;
    while s.open && turn < READ_PER_TURN && s.script != []
      invariant Follows(s, script, limit, drain)
      invariant !over && (s != before ==> before.open)
      invariant (s == before && turn == 0) || |s.script| < |before.script|
      invariant !drain && stdout && |before.buffer| <= limit ==> |s.buffer| <= limit
      decreases |s.script|
    {
      var read := s.script[0];
      ReadOneFollows(s, script, limit, drain);
      s := ReadOne(s, limit, drain);
      if read.WouldBlock? {
        return;
      }
      if read.Data? {
        turn := turn + |read.bytes|;
        if !drain && stdout && |s.buffer| > limit {
          over := true;
          return;
        }
      }
    }
  }

  /** What the top of the collecting loop sees before it reads. */
  datatype Turn = CancelSeen | DeadlinePassed | PollFailed | Idle | Ready

  /** How many turns had something to read. */
  function Readies(turns: seq<Turn>): nat {
    if turns == [] then 0 else Readies(turns[..|turns| - 1]) + (if turns[|turns| - 1].Ready? then 1 else 0)
  }

  lemma OneTurn(turns: seq<Turn>, t: nat)
    requires t < |turns|
    ensures Readies(turns[..t + 1]) == Readies(turns[..t]) + if turns[t].Ready? then 1 else 0
  {
    assert turns[..t + 1][..t] == turns[..t];
  }

  datatype Collected =
    | Output(stdout: seq<byte>, stderr: seq<byte>)
    | Unfinished
    | Resources

  /** Every turn takes something from a stream that is open and has something left. */
  predicate Consumed(s: Stream, script: seq<Read>, readies: nat) {
    s.open && s.script != [] ==> |s.script| + readies <= |script|
  }

  /** The streams so far, after `readies` full rounds and `part` streams of the next. */
  predicate Reading(streams: seq<Stream>, pipes: seq<seq<Read>>, limit: nat, drain: bool, readies: nat, part: nat) {
    && |streams| == |pipes|
    && (forall k :: 0 <= k < |pipes| ==> Follows(streams[k], pipes[k], limit, drain))
    && (forall k :: 0 <= k < |pipes| ==> Consumed(streams[k], pipes[k], readies + if k < part then 1 else 0))
    && (!drain && |pipes| > 0 ==> |streams[0].buffer| <= limit)
  }

  lemma OpenedReads(streams: seq<Stream>, pipes: seq<seq<Read>>, limit: nat, drain: bool)
    requires |streams| == |pipes| && forall k :: 0 <= k < |pipes| ==> streams[k] == Opened(pipes[k])
    ensures Reading(streams, pipes, limit, drain, 0, 0)
  {
    forall k | 0 <= k < |pipes| ensures Follows(streams[k], pipes[k], limit, drain) {
      assert [] + Written(pipes[k]) == Written(pipes[k]);
    }
  }

  /** Each stream in turn; stops at once when stdout passes the limit. */
  method ReadRound(before: seq<Stream>, limit: nat, drain: bool, ghost pipes: seq<seq<Read>>, ghost readies: nat)
    returns (streams: seq<Stream>, over: bool)
    requires |before| > 0 && Reading(before, pipes, limit, drain, readies, 0)
    ensures !over ==> Reading(streams, pipes, limit, drain, readies + 1, 0)
    ensures over ==> |streams| == |before| && !drain && |streams[0].buffer| > limit && streams[0].buffer <= Written(pipes[0])
  {
    streams, over := before, false;
    var k := 0;
    while k < |streams|
      invariant 0 <= k <= |streams| == |before|
      invariant Reading(streams, pipes, limit, drain, readies, k)
    {
      var s;
      s, over := ReadTurn(streams[k], k == 0, limit, drain, pipes[k]);
      streams := streams[k := s];
      if over {
        SeenIsPrefix(s, pipes[k], limit, drain);
        return;
      }
      k := k + 1;
    }
  }

  /** Output that is whole: every pipe ended, and each holds what is kept of all it carried. */
  predicate Whole(c: Collected, pipes: seq<seq<Read>>, limit: nat, drain: bool)
    requires 1 <= |pipes| <= 2 && c.Output?
  {
    && HasEnd(pipes[0])
    && c.stdout == Kept(Written(pipes[0]), limit, drain)
    && (|pipes| == 2 ==> HasEnd(pipes[1]))
    && c.stderr == if |pipes| == 2 then Kept(Written(pipes[1]), limit, drain) else []
  }

  function Gather(streams: seq<Stream>): Collected
    requires |streams| > 0
  {
    Output(streams[0].buffer, if |streams| == 2 then streams[1].buffer else [])
  }

  predicate AllClosed(streams: seq<Stream>) { forall k :: 0 <= k < |streams| ==> !streams[k].open }

  /** When every pipe has ended, what was gathered is whole. */
  lemma ClosedIsWhole(streams: seq<Stream>, pipes: seq<seq<Read>>, limit: nat, drain: bool, readies: nat)
    requires 1 <= |pipes| <= 2 && Reading(streams, pipes, limit, drain, readies, 0) && AllClosed(streams)
    ensures Whole(Gather(streams), pipes, limit, drain)
  {
    assert Follows(streams[0], pipes[0], limit, drain);
    if |pipes| == 2 { assert Follows(streams[1], pipes[1], limit, drain); }
  }

  /** A pipe that never ends, or was not given enough turns to. */
  predicate Short(pipes: seq<seq<Read>>, readies: nat) {
    exists k :: 0 <= k < |pipes| && (!HasEnd(pipes[k]) || readies < |pipes[k]|)
  }

  lemma OpenIsShort(streams: seq<Stream>, pipes: seq<seq<Read>>, limit: nat, drain: bool, readies: nat)
    requires Reading(streams, pipes, limit, drain, readies, 0) && !AllClosed(streams)
    ensures Short(pipes, readies)
  {
    var k :| 0 <= k < |streams| && streams[k].open;
    assert Follows(streams[k], pipes[k], limit, drain) && Consumed(streams[k], pipes[k], readies);
  }

  /** A cancel or the deadline came before anything was there to read. */
  predicate StoppedFirst(turns: seq<Turn>) {
    exists t :: 0 <= t < |turns| && (turns[t].CancelSeen? || turns[t].DeadlinePassed?)
                && forall j :: 0 <= j < t ==> turns[j].Idle?
  }

  /**
  `collect_fds` on stdout and, when piped, stderr. An output is whole or, when not
  draining, already past the limit. It gives up only on a cancel, the deadline or a
  failed poll, or when a pipe never ends or was not given enough turns to.
  */
  method Collect(pipes: seq<seq<Read>>, nonblocking: bool, turns: seq<Turn>, limit: nat, drain: bool)
    returns (c: Collected)
    requires 1 <= |pipes| <= 2
    ensures c.Output? ==>
              Whole(c, pipes, limit, drain) || (!drain && |c.stdout| > limit && c.stdout <= Written(pipes[0]))
    ensures c.Unfinished? ==>
              (exists i :: 0 <= i < |turns| && (turns[i].CancelSeen? || turns[i].DeadlinePassed?)) || Short(pipes, Readies(turns))
    ensures c.Resources? ==> !nonblocking || exists i :: 0 <= i < |turns| && turns[i].PollFailed?
    ensures !nonblocking ==> c.Resources?
    ensures nonblocking && StoppedFirst(turns) ==> c.Unfinished?
  {
    if !nonblocking {
      return Resources;
    }
    var streams := seq(|pipes|, k requires 0 <= k < |pipes| => Opened(pipes[k]));
    ghost var readies: nat := 0;
    OpenedReads(streams, pipes, limit, drain);
    var t := 0;
    while t < |turns|
      invariant 0 <= t <= |turns| && readies == Readies(turns[..t])
      invariant Reading(streams, pipes, limit, drain, readies, 0)
      invariant forall j :: 0 <= j < t ==> turns[j].Idle? || turns[j].Ready?
      invariant (forall j :: 0 <= j < t ==> turns[j].Idle?) ==> streams[0].open
    {
      if AllClosed(streams) {
        ClosedIsWhole(streams, pipes, limit, drain, readies);
        return Gather(streams);
      }
      if turns[t].CancelSeen? || turns[t].DeadlinePassed? {
        return Unfinished;
      }
      if turns[t].PollFailed? {
        return Resources;
      }
      OneTurn(turns, t);
      if turns[t].Ready? {
        var over;
        streams, over := ReadRound(streams, limit, drain, pipes, readies);
        if over {
          return Gather(streams);
        }
        readies := readies + 1;
      }
      t := t + 1;
    }
    assert turns[..t] == turns;
    if AllClosed(streams) {
      ClosedIsWhole(streams, pipes, limit, drain, readies);
      return Gather(streams);
    }
    OpenIsShort(streams, pipes, limit, drain, readies);
    return Unfinished;
  }

  // ------------------------------------------------------------ the exit path

  /** One look of `wait_for_exit`: still running (with time left and no cancel, or not), or gone. */
  datatype Look = Running(mayWait: bool) | Gone

  /** `wait_for_exit`: true when the child was seen gone before the wait had to stop. */
  method WaitForExit(looks: seq<Look>, wait: bool) returns (exited: bool)
    ensures exited <==> exists i :: 0 <= i < |looks| && looks[i].Gone?
                                    && forall j :: 0 <= j < i ==> looks[j] == Running(true) && wait
  {
    var i := 0;
    while i < |looks|
      invariant 0 <= i <= |looks|
      invariant forall j :: 0 <= j < i ==> looks[j] == Running(true) && wait
    {
      if looks[i].Gone? {
        return true;
      }
      if !(looks[i].mayWait && wait) {
        return false;
      }
      i := i + 1;
    }
    return false;
  }

  /** An exit status: its code, or none when a signal ended the program. */
  datatype Status = Status(code: Option<int>)

  predicate Succeeded(status: Status) { status.code == Some(0) }

  /** One `try_wait`: nothing yet (with time left or not), a status, or an error. */
  datatype Reap = NotYet(timeLeft: bool) | Reaped(status: Status) | ReapFailed

  method ReapWithin(reaps: seq<Reap>) returns (status: Option<Status>)
    ensures status.Some? ==> Reaped(status.value) in reaps
    ensures forall i :: 0 <= i < |reaps| && reaps[i].Reaped? && (forall j :: 0 <= j < i ==> reaps[j] == NotYet(true)) ==>
              status == Some(reaps[i].status)
    ensures status.Some? <==> exists i :: 0 <= i < |reaps| && reaps[i].Reaped?
                                          && forall j :: 0 <= j < i ==> reaps[j] == NotYet(true)
  {
    var i := 0;
    while i < |reaps|
      invariant 0 <= i <= |reaps|
      invariant forall j :: 0 <= j < i ==> reaps[j] == NotYet(true)
    {
      match reaps[i] {
        case Reaped(found) => return Some(found);
        case ReapFailed => return None;
        case NotYet(timeLeft) =>
          if !timeLeft {
            return None;
          }
      }
      i := i + 1;
    }
    return None;
  }

  // -------------------------------------------------------------- the verdict

  datatype Mode = Scrubbed(anyStatus: bool) | Managed

  datatype RunError =
    | SpawnError | Timeout | OutputTooLarge | ExitStatus(code: Option<int>) | Cancelled | NoResources

  datatype Verdict =
    | Ok(stdout: seq<byte>, stderr: seq<byte>, success: bool, code: Option<int>)
    | Err(error: RunError)

  /** Everything one call of `run_inner` observes, in order. */
  datatype World = World(
    cancelledAtStart: bool,
    lateAtStart: bool,
    admitted: bool,        // a permit was free
    ticket: bool,          // not shutting down at `begin_spawn`
    cancelledAtSpawn: bool,
    lateAtSpawn: bool,
    cancelledAtSpawnAgain: bool,
    spawned: bool,
    registered: bool,      // not shutting down at `register`
    hasStdout: bool,
    hasStderr: bool,
    stdout: seq<Read>,
    stderr: seq<Read>,
    nonblocking: bool,
    turns: seq<Turn>,
    cancelledAfterOutput: bool,
    looks: seq<Look>,
    reaps: seq<Reap>,
    cancelledAtEnd: bool,
    settled: bool,         // the caller's deadline also bounds the settlement
    lateAtEnd: bool)

  /** The caller's flag was seen set. */
  predicate CallerCancelled(w: World) {
    w.cancelledAtStart || w.cancelledAtSpawn || w.cancelledAtSpawnAgain || w.cancelledAtEnd
  }

  /** The program was seen to exit before the run killed anything. */
  predicate ExitedUnforced(w: World) {
    exists i :: 0 <= i < |w.looks| && w.looks[i].Gone? && forall j :: 0 <= j < i ==> w.looks[j] == Running(true)
  }

  /** The program was reaped in time. */
  predicate ReapedInTime(w: World) {
    exists i :: 0 <= i < |w.reaps| && w.reaps[i].Reaped? && forall j :: 0 <= j < i ==> w.reaps[j] == NotYet(true)
  }

  /** Nothing refused, cancelled or timed out the run, and its pipes closed in time. */
  predicate Undisturbed(w: World, mode: Mode) {
    && !CallerCancelled(w) && !w.cancelledAfterOutput && !w.lateAtStart && !w.lateAtSpawn && !w.lateAtEnd
    && w.admitted && w.ticket && w.spawned && w.registered && w.hasStdout && w.nonblocking
    && (forall i :: 0 <= i < |w.turns| ==> w.turns[i].Idle? || w.turns[i].Ready?)
    && HasEnd(w.stdout) && |w.stdout| <= Readies(w.turns)
    && (mode.Managed? ==> w.hasStderr && HasEnd(w.stderr) && |w.stderr| <= Readies(w.turns))
    && ExitedUnforced(w) && ReapedInTime(w)
  }

  /** The run got as far as the registry: from here on a shutdown only kills its program. */
  predicate Registered(w: World) {
    && !w.cancelledAtStart && !w.lateAtStart && w.admitted && w.ticket
    && !w.cancelledAtSpawn && !w.lateAtSpawn && w.spawned && w.registered
  }

  /** The run ended before the registry for the caller's flag or for a shutdown. */
  predicate CancelledEarly(w: World) {
    || w.cancelledAtStart
    || (!w.lateAtStart && w.admitted && !w.ticket)
    || (!w.lateAtStart && w.admitted && w.ticket && (w.cancelledAtSpawn || w.lateAtSpawn) && w.cancelledAtSpawnAgain)
    || (!w.lateAtStart && w.admitted && w.ticket && !w.cancelledAtSpawn && !w.lateAtSpawn && w.spawned && !w.registered)
  }

  /** The run got past the start: not cancelled, not late, with a permit and a ticket. */
  predicate Begun(w: World) { !w.cancelledAtStart && !w.lateAtStart && w.admitted && w.ticket }

  /** The program was never seen gone. */
  predicate NeverGone(looks: seq<Look>) { forall i :: 0 <= i < |looks| ==> !looks[i].Gone? }

  /** What can make a registered run time out. */
  ghost predicate Late(w: World, mode: Mode) {
    || (w.settled && w.lateAtEnd)
    || (exists i :: 0 <= i < |w.turns| && (w.turns[i].CancelSeen? || w.turns[i].DeadlinePassed?))
    || Short(if mode.Managed? then [w.stdout, w.stderr] else [w.stdout], Readies(w.turns))
    || w.cancelledAfterOutput || !ExitedUnforced(w) || !ReapedInTime(w)
  }

  /** The output can be read: the pipes are there, set up, and no poll of them fails. */
  predicate Readable(w: World, mode: Mode) {
    && w.hasStdout && (mode.Managed? ==> w.hasStderr) && w.nonblocking
    && forall i :: 0 <= i < |w.turns| ==> !w.turns[i].PollFailed?
  }

  /**
  `run_inner`. Success means complete output, an exit the run did not force and,
  unless any status is accepted, exit status 0. A cancel verdict comes only from the
  caller's flag or from a shutdown that refused the run before it was registered:
  once registered, a run that shutdown kills is never `Cancelled`, and one whose
  pipes then close reports the signal as its exit status.
  */
  method RunInner(w: World, limit: nat, mode: Mode) returns (r: Verdict)
    ensures r.Ok? && mode.Scrubbed? ==>
              && r.stdout == Written(w.stdout) && HasEnd(w.stdout) && |r.stdout| <= limit
              && r.stderr == []
    ensures r.Ok? && mode.Managed? ==>
              && r.stdout == Written(w.stdout)[..Min(limit, |Written(w.stdout)|)] && HasEnd(w.stdout)
              && r.stderr == Written(w.stderr)[..Min(limit, |Written(w.stderr)|)] && HasEnd(w.stderr)
    ensures r.Ok? ==>
              && ExitedUnforced(w)
              && Reaped(Status(r.code)) in w.reaps
              && r.success == (r.code == Some(0))
              && (mode == Scrubbed(false) ==> r.success)
    ensures r == Err(OutputTooLarge) ==> mode.Scrubbed? && |Written(w.stdout)| > limit
    ensures r.Err? && r.error.ExitStatus? ==>
              && mode == Scrubbed(false) && r.error.code != Some(0) && ExitedUnforced(w)
              && Reaped(Status(r.error.code)) in w.reaps
    ensures r == Err(SpawnError) ==> w.admitted && w.ticket && !w.spawned
    ensures r == Err(Cancelled) ==> CallerCancelled(w) || !w.ticket || !w.registered
    ensures !Registered(w) ==> (r == Err(Cancelled) <==> CancelledEarly(w))
    ensures Registered(w) && r != Err(NoResources) ==> (r == Err(Cancelled) <==> w.cancelledAtEnd)
    ensures Registered(w) && Readable(w, mode) ==> r != Err(NoResources)
    ensures !w.cancelledAtStart && w.lateAtStart ==> r == Err(Timeout)
    ensures !w.cancelledAtStart && !w.lateAtStart && !w.admitted ==> r == Err(NoResources)
    ensures Begun(w) && (w.cancelledAtSpawn || w.lateAtSpawn) && !w.cancelledAtSpawnAgain ==> r == Err(Timeout)
    ensures Begun(w) && !w.cancelledAtSpawn && !w.lateAtSpawn && !w.spawned ==> r == Err(SpawnError)
    ensures Registered(w) && (!w.hasStdout || (mode.Managed? && !w.hasStderr) || !w.nonblocking) ==> r == Err(NoResources)
    ensures Registered(w) && r == Err(Timeout) ==> Late(w, mode) && !w.cancelledAtEnd
    ensures Registered(w) && Readable(w, mode) && !w.cancelledAtEnd && w.settled && w.lateAtEnd ==> r == Err(Timeout)
    ensures Registered(w) && Readable(w, mode) && !w.cancelledAtEnd && StoppedFirst(w.turns) ==> r == Err(Timeout)
    ensures Registered(w) && Readable(w, mode) && !w.cancelledAtEnd
              && (!ReapedInTime(w) || NeverGone(w.looks)) ==>
              r == Err(Timeout) || r == Err(OutputTooLarge)
    ensures Undisturbed(w, mode) && (mode.Managed? || |Written(w.stdout)| <= limit) ==>
              r.Ok? || (mode == Scrubbed(false) && r.error.ExitStatus?)
    ensures Undisturbed(w, mode) && mode.Scrubbed? && |Written(w.stdout)| > limit ==> r == Err(OutputTooLarge)
    ensures Undisturbed(w, mode) && mode == Scrubbed(false) && |Written(w.stdout)| <= limit
              && (forall status :: Reaped(status) in w.reaps ==> status.code.None?) ==>
              r == Err(ExitStatus(None))
  {
    if w.cancelledAtStart {
      return Err(Cancelled);
    }
    if w.lateAtStart {
      return Err(Timeout);
    }
    if !w.admitted {
      return Err(NoResources);
    }
    if !w.ticket {
      return Err(Cancelled);
    }
    var drain := mode.Managed?;
    var anyStatus := drain || mode.anyStatus;
    if w.cancelledAtSpawn || w.lateAtSpawn {
      return Err(if w.cancelledAtSpawnAgain then Cancelled else Timeout);
    }
    if !w.spawned {
      return Err(SpawnError);
    }
    if !w.registered {
      return Err(Cancelled);
    }
    if !w.hasStdout || (drain && !w.hasStderr) {
      return Err(NoResources);
    }
    var collected := Collect(if drain then [w.stdout, w.stderr] else [w.stdout], w.nonblocking, w.turns, limit, drain);
    if collected.Resources? {
      return Err(NoResources);
    }
    var overLimit := collected.Output? && |collected.stdout| > limit;
    var wait := collected.Output? && !overLimit && !w.cancelledAfterOutput;
    var exited := WaitForExit(w.looks, wait);
    var status := ReapWithin(w.reaps);
    assert status.Some? <==> ReapedInTime(w);
    assert exited ==> !NeverGone(w.looks);
    if w.cancelledAtEnd {
      return Err(Cancelled);
    }
    if w.settled && w.lateAtEnd {
      return Err(Timeout);
    }
    if collected.Unfinished? {
      return Err(Timeout);
    }
    if overLimit {
      return Err(OutputTooLarge);
    }
    if !exited {
      return Err(Timeout);
    }
    match status
    case None => return Err(Timeout);
    case Some(found) =>
      if Succeeded(found) || anyStatus {
        return Ok(collected.stdout, collected.stderr, Succeeded(found), found.code);
      }
      return Err(ExitStatus(found.code));
  }

  /** A registered run whose program a shutdown kills: its pipe closes and a signal ended it. */
  const KILLED: World := World(
    false, false, true, true, false, false, false, true, true, true, false, [Eof], [], true, [Ready],
    false, [Gone], [Reaped(Status(None))], false, false, false)

  method KilledReportsExitStatus(limit: nat) returns (r: Verdict)
    ensures Registered(KILLED) && r == Err(ExitStatus(None))
  {
    assert Readies(KILLED.turns[..0]) == 0 && HasEnd(KILLED.stdout) && Written(KILLED.stdout) == [];
    assert ExitedUnforced(KILLED) by { assert KILLED.looks[0].Gone?; }
    assert ReapedInTime(KILLED) by { assert KILLED.reaps[0].Reaped?; }
    r := RunInner(KILLED, limit, Scrubbed(false));
  }
}

/** Scripted stand-ins for everything the session code cannot see: the `ping`
    process, paramiko's `SSHClient` (connect, exec_command and the exit-status flag
    of the command channel) and paramiko's interactive `Channel`. Each external call
    consumes the next answer of a script; once a script runs out, every further call
    gets a fixed default answer. */
module Oracle {

  /** The answers a scripted call gives, in order, and how many calls were made. */
  datatype Feed<T> = Feed(script: seq<T>, calls: nat)

  /** The answer the `k`-th call from now will get. */
  function Answer<T>(f: Feed<T>, k: nat, default: T): T {
    if f.calls + k < |f.script| then f.script[f.calls + k] else default
  }

  /** The feed after `k` more calls. */
  function Advance<T>(f: Feed<T>, k: nat): (g: Feed<T>)
    ensures g.script == f.script && g.calls == f.calls + k
  {
    f.(calls := f.calls + k)
  }

  /** How many scripted answers are still to come. */
  function Remaining<T>(f: Feed<T>): nat {
    if f.calls < |f.script| then |f.script| - f.calls else 0
  }

  predicate IsTrue(b: bool) { b }
  predicate NonEmpty(s: string) { s != "" }

  /** What a retry loop `for n in range(budget): if call() is good: break` sees:
      how many calls it makes and whether one of them gave a good answer. */
  datatype Poll = Poll(calls: nat, hit: bool)

  /** Calls that came back without a good answer (each is followed by a sleep). */
  function Misses(p: Poll): nat {
    if p.hit && p.calls > 0 then p.calls - 1 else p.calls
  }

  /** The outcome of the bounded retry loop over feed `f`: it stops at the first good
      answer and otherwise gives up after `budget` calls. */
  function FirstHit<T>(f: Feed<T>, default: T, budget: nat, good: T -> bool): (p: Poll)
    ensures p.calls <= budget
    ensures p.hit ==> 1 <= p.calls
    ensures Misses(p) == p.calls - (if p.hit then 1 else 0)
    decreases budget
  {
    if budget == 0 then Poll(0, false)
    else if good(Answer(f, 0, default)) then Poll(1, true)
    else
      var rest := FirstHit(Advance(f, 1), default, budget - 1, good);
      Poll(rest.calls + 1, rest.hit)
  }

  /** The same loop over a feed of flags, where the good answer is `true`. It is
      `FirstHit` with `IsTrue` (lemma `FirstTrueIs`), written out first-order because the
      methods' proofs are much cheaper without the higher-order application. */
  function FirstTrue(f: Feed<bool>, budget: nat): (p: Poll)
    ensures p.calls <= budget
    ensures p.hit ==> 1 <= p.calls
    ensures Misses(p) == p.calls - (if p.hit then 1 else 0)
    decreases budget
  {
    if budget == 0 then Poll(0, false)
    else if Answer(f, 0, false) then Poll(1, true)
    else
      var rest := FirstTrue(Advance(f, 1), budget - 1);
      Poll(rest.calls + 1, rest.hit)
  }

  /** The retry loop finds a good answer exactly when one of the first `budget` answers
      is good; it stops at the first good answer; without one it makes all `budget` calls. */
  lemma {:induction false} FirstHitFindsFirst<T>(f: Feed<T>, default: T, budget: nat, good: T -> bool)
    ensures var p := FirstHit(f, default, budget, good);
      (p.hit <==> exists k: nat :: k < budget && good(Answer(f, k, default)))
      && (p.hit ==> good(Answer(f, p.calls - 1, default)))
      && (forall k: nat :: k < p.calls - 1 ==> !good(Answer(f, k, default)))
      && (!p.hit ==> p.calls == budget && forall k: nat :: k < budget ==> !good(Answer(f, k, default)))
    decreases budget
  {
    if budget > 0 && !good(Answer(f, 0, default)) {
      var g := Advance(f, 1);
      FirstHitFindsFirst(g, default, budget - 1, good);
      assert forall k: nat :: Answer(g, k, default) == Answer(f, k + 1, default);
      assert forall k: nat :: 0 < k ==> Answer(f, k, default) == Answer(g, k - 1, default);
    }
  }

  /** Two polls that make the same calls with the same first good answer agree. */
  lemma FirstHitUnique<T>(f: Feed<T>, default: T, budget: nat, good: T -> bool, p: Poll)
    requires p.calls <= budget
    requires p.hit ==> 1 <= p.calls && good(Answer(f, p.calls - 1, default))
    requires forall k: nat :: k < p.calls - 1 ==> !good(Answer(f, k, default))
    requires !p.hit ==> p.calls == budget && forall k: nat :: k < budget ==> !good(Answer(f, k, default))
    ensures FirstHit(f, default, budget, good) == p
  {
    var q := FirstHit(f, default, budget, good);
    FirstHitFindsFirst(f, default, budget, good);
    if p.hit {
      assert q.hit;
    }
  }

  /** The flag loop is the retry loop whose good answer is `true`. */
  lemma {:induction false} FirstTrueIs(f: Feed<bool>, budget: nat)
    ensures FirstTrue(f, budget) == FirstHit(f, false, budget, IsTrue)
    decreases budget
  {
    if budget > 0 && !Answer(f, 0, false) {
      FirstTrueIs(Advance(f, 1), budget - 1);
    }
  }

  /** The flag loop reports a hit exactly when one of the first `budget` flags is set,
      stops at the first set flag, and without one makes all `budget` calls. */
  lemma FirstTrueFindsFirst(f: Feed<bool>, budget: nat)
    ensures var p := FirstTrue(f, budget);
      (p.hit <==> exists k: nat :: k < budget && Answer(f, k, false))
      && (p.hit ==> Answer(f, p.calls - 1, false))
      && (forall k: nat :: k < p.calls - 1 ==> !Answer(f, k, false))
      && (!p.hit ==> p.calls == budget && forall k: nat :: k < budget ==> !Answer(f, k, false))
  {
    FirstTrueIs(f, budget);
    FirstHitFindsFirst(f, false, budget, IsTrue);
  }

  /** The flag loop whose first set flag is the `n`-th stops after `n + 1` calls. */
  lemma {:induction false} FirstTrueAt(f: Feed<bool>, budget: nat, n: nat)
    requires n < budget && Answer(f, n, false)
    requires forall k: nat :: k < n ==> !Answer(f, k, false)
    ensures FirstTrue(f, budget) == Poll(n + 1, true)
    decreases n
  {
    if n > 0 {
      assert !Answer(f, 0, false);
      var g := Advance(f, 1);
      assert Answer(g, n - 1, false) == Answer(f, n, false);
      forall k: nat | k < n - 1 ensures !Answer(g, k, false) {
        assert Answer(g, k, false) == Answer(f, k + 1, false);
      }
      FirstTrueAt(g, budget - 1, n - 1);
    }
  }

  /** The flag loop that sees no set flag makes all `budget` calls. */
  lemma {:induction false} FirstTrueNone(f: Feed<bool>, budget: nat)
    requires forall k: nat :: k < budget ==> !Answer(f, k, false)
    ensures FirstTrue(f, budget) == Poll(budget, false)
    decreases budget
  {
    if budget > 0 {
      assert !Answer(f, 0, false);
      var g := Advance(f, 1);
      forall k: nat | k < budget - 1 ensures !Answer(g, k, false) {
        assert Answer(g, k, false) == Answer(f, k + 1, false);
      }
      FirstTrueNone(g, budget - 1);
    }
  }

  function Repeat<T>(x: T, n: nat): (r: seq<T>)
    ensures |r| == n && forall i :: 0 <= i < n ==> r[i] == x
  {
    if n == 0 then [] else Repeat(x, n - 1) + [x]
  }

  /** Two runs of the same element, logged one after the other, are one run. */
  lemma {:induction false} RepeatAppend<T>(log: seq<T>, x: T, m: nat, n: nat)
    ensures log + Repeat(x, m) + Repeat(x, n) == log + Repeat(x, m + n)
    decreases n
  {
    if n > 0 {
      RepeatAppend(log, x, m, n - 1);
      assert log + Repeat(x, m) + Repeat(x, n) == log + Repeat(x, m) + Repeat(x, n - 1) + [x];
    }
  }

  /** A log that grew by a run of `x` after already ending in one ends in the longer run. */
  lemma LogExtends(log: seq<int>, before: seq<int>, after: seq<int>, x: int, m: nat, n: nat)
    requires before == log + Repeat(x, m) && after == before + Repeat(x, n)
    ensures after == log + Repeat(x, m + n)
  {
    RepeatAppend(log, x, m, n);
  }

  /** Proof helper: sequence concatenation regrouped. */
  lemma AppendAssoc<T>(a: seq<T>, b: seq<T>, c: seq<T>)
    ensures a + (b + c) == a + b + c
  {
  }

  /** Proof helper: a run seen from its front. */
  lemma RepeatCons<T>(x: T, n: nat)
    ensures Repeat(x, n + 1) == [x] + Repeat(x, n)
  {
    assert Repeat(x, n + 1) == [x] + Repeat(x, n);
  }

  /** What a command run on the host yields: its standard output and standard error. */
  datatype Output = Output(out: string, err: string)

  /** The answer given to a call the script has no entry for. */
  const Unscripted: string := "unscripted call"

  /** How `SSHClient.connect` (with its key loading) ends. */
  datatype ConnectOutcome = Accepted | AuthRejected | ConnectError(reason: string)

  /** How `SSHClient.exec_command` ends: the command channel opens, reports
      `exit_status_ready()` false `pendingPolls` times and then true, and its two
      streams' `readlines()` return the given lines; or the call raises. */
  datatype ExecOutcome =
    | ExecOpened(pendingPolls: nat, stdoutLines: seq<string>, stderrLines: seq<string>)
    | ExecError(reason: string)

  predicate IsOpened(o: ExecOutcome) { o.ExecOpened? }

  /** The credential handed to `connect`: a password, or the RSA key loaded from a file. */
  datatype Credential = WithPassword(password: string) | WithKeyFile(path: string)

  /** The arguments of one `connect` call. */
  datatype ConnectRequest = ConnectRequest(
    hostname: string, port: int, username: string, credential: Credential,
    timeout: int, bannerTimeout: int, authTimeout: int, allowAgent: bool, lookForKeys: bool)

  /** Everything the remote side has been asked, and what it will answer next. */
  datatype RemoteState = RemoteState(
    ping: Feed<bool>, pinged: seq<string>,
    connect: Feed<ConnectOutcome>, requests: seq<ConnectRequest>,
    exec: Feed<ExecOutcome>, commands: seq<string>,
    pendingExit: nat, exitPolls: nat)

  /** The ping process, the SSH client and the command channel, as one scripted double. */
  class Remote {
    var state: RemoteState

    constructor (pings: seq<bool>, connects: seq<ConnectOutcome>, execs: seq<ExecOutcome>)
      ensures state == RemoteState(Feed(pings, 0), [], Feed(connects, 0), [], Feed(execs, 0), [], 0, 0)
    {
      state := RemoteState(Feed(pings, 0), [], Feed(connects, 0), [], Feed(execs, 0), [], 0, 0);
    }

    /** `ping -c 1 host` run as a process: true when it exits without error. */
    method Ping(host: string) returns (replied: bool)
      modifies this
      ensures replied == Answer(old(state.ping), 0, false)
      ensures state == old(state).(ping := Advance(old(state.ping), 1), pinged := old(state.pinged) + [host])
    {
      replied := Answer(state.ping, 0, false);
      state := state.(ping := Advance(state.ping, 1), pinged := state.pinged + [host]);
    }

    /** `SSHClient.connect` with the given arguments. */
    method Connect(request: ConnectRequest) returns (outcome: ConnectOutcome)
      modifies this
      ensures outcome == Answer(old(state.connect), 0, ConnectError(Unscripted))
      ensures state == old(state).(connect := Advance(old(state.connect), 1), requests := old(state.requests) + [request])
    {
      outcome := Answer(state.connect, 0, ConnectError(Unscripted));
      state := state.(connect := Advance(state.connect, 1), requests := state.requests + [request]);
    }

    /** `SSHClient.exec_command(command)`; an opened channel starts its exit-status countdown. */
    method ExecCommand(command: string) returns (outcome: ExecOutcome)
      modifies this
      ensures outcome == Answer(old(state.exec), 0, ExecError(Unscripted))
      ensures state == old(state).(exec := Advance(old(state.exec), 1), commands := old(state.commands) + [command],
                                   pendingExit := if outcome.ExecOpened? then outcome.pendingPolls else old(state.pendingExit))
    {
      outcome := Answer(state.exec, 0, ExecError(Unscripted));
      state := state.(exec := Advance(state.exec, 1), commands := state.commands + [command],
                      pendingExit := if outcome.ExecOpened? then outcome.pendingPolls else state.pendingExit);
    }

    /** `channel.exit_status_ready()` on the last opened command channel. */
    method ExitStatusReady() returns (ready: bool)
      modifies this
      ensures ready == (old(state.pendingExit) == 0)
      ensures state == old(state).(pendingExit := if ready then 0 else old(state.pendingExit) - 1,
                                   exitPolls := old(state.exitPolls) + 1)
    {
      ready := state.pendingExit == 0;
      state := state.(pendingExit := if ready then 0 else state.pendingExit - 1, exitPolls := state.exitPolls + 1);
    }
  }

  /** Which of a channel's two receive streams a call reads. */
  datatype StreamKind = Stdout | Stderr

  /** An interactive channel: the scripted answers of its readiness flags and receive
      calls, and everything sent on it so far. */
  datatype ChannelState = ChannelState(
    sendReady: Feed<bool>, recvReady: Feed<bool>, stderrReady: Feed<bool>,
    recv: Feed<string>, recvStderr: Feed<string>, sent: seq<string>)

  /** The readiness flag polled before receiving from a stream. */
  function ReadyFeed(c: ChannelState, kind: StreamKind): Feed<bool> {
    if kind == Stdout then c.recvReady else c.stderrReady
  }

  function WithReadyFeed(c: ChannelState, kind: StreamKind, f: Feed<bool>): ChannelState {
    if kind == Stdout then c.(recvReady := f) else c.(stderrReady := f)
  }

  /** The receive calls of a stream. */
  function DataFeed(c: ChannelState, kind: StreamKind): Feed<string> {
    if kind == Stdout then c.recv else c.recvStderr
  }

  function WithDataFeed(c: ChannelState, kind: StreamKind, f: Feed<string>): ChannelState {
    if kind == Stdout then c.(recv := f) else c.(recvStderr := f)
  }

  /** Scripted data not yet received on either stream. */
  function Unread(c: ChannelState): nat {
    Remaining(c.recv) + Remaining(c.recvStderr)
  }

  /** paramiko's interactive `Channel`, as a scripted double. */
  class ScriptedChannel {
    var state: ChannelState

    constructor (sendReady: seq<bool>, recvReady: seq<bool>, stderrReady: seq<bool>,
                 recv: seq<string>, recvStderr: seq<string>)
      ensures state == ChannelState(Feed(sendReady, 0), Feed(recvReady, 0), Feed(stderrReady, 0),
                                    Feed(recv, 0), Feed(recvStderr, 0), [])
    {
      state := ChannelState(Feed(sendReady, 0), Feed(recvReady, 0), Feed(stderrReady, 0),
                            Feed(recv, 0), Feed(recvStderr, 0), []);
    }

    method SendReady() returns (ready: bool)
      modifies this
      ensures ready == Answer(old(state.sendReady), 0, false)
      ensures state == old(state).(sendReady := Advance(old(state.sendReady), 1))
    {
      ready := Answer(state.sendReady, 0, false);
      state := state.(sendReady := Advance(state.sendReady, 1));
    }

    /** `recv_ready()` for `Stdout`, `recv_stderr_ready()` for `Stderr`. */
    method Ready(kind: StreamKind) returns (ready: bool)
      modifies this
      ensures ready == Answer(ReadyFeed(old(state), kind), 0, false)
      ensures state == WithReadyFeed(old(state), kind, Advance(ReadyFeed(old(state), kind), 1))
    {
      ready := Answer(ReadyFeed(state, kind), 0, false);
      state := WithReadyFeed(state, kind, Advance(ReadyFeed(state, kind), 1));
    }

    /** `recv(size)` for `Stdout`, `recv_stderr(size)` for `Stderr`; the scripted chunk is
        what arrives, whatever the size asked for. */
    method Receive(kind: StreamKind, size: nat) returns (text: string)
      modifies this
      ensures text == Answer(DataFeed(old(state), kind), 0, "")
      ensures state == WithDataFeed(old(state), kind, Advance(DataFeed(old(state), kind), 1))
    {
      text := Answer(DataFeed(state, kind), 0, "");
      state := WithDataFeed(state, kind, Advance(DataFeed(state, kind), 1));
    }

    method Send(data: string)
      modifies this
      ensures state == old(state).(sent := old(state.sent) + [data])
    {
      state := state.(sent := state.sent + [data]);
    }
  }
}

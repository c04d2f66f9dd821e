/** The `ConnectSSH` session object: it validates the credentials, checks that the host
    answers a ping, connects with one authentication method, and then runs commands
    either one-shot (`exec_command`) or on an interactive shell stream. Every method is
    proved to do exactly what the functions of modules Session and Stream say. */
module ConnectSSH {
  import opened Text
  import opened Oracle
  import opened Pagination
  import opened Session
  import opened Stream

  const InitialStatusMessage: string := "Yet to connect..."
  const PingSleepSeconds: int := 3
  const PleaseWaitMessage: string := "Please wait..."

  function ClosedMessage(host: string): string { "SSH Connection closed for the host: " + host }
  function PingingMessage(host: string): string { "Pinging the host: " + host }
  function PingAttemptFailedMessage(attempt: nat, host: string): string {
    Decimal(attempt) + " attempt of ping test failed for the host: " + host
  }
  function InjectingMessage(polls: nat): string {
    "Injecting the command for " + Decimal(polls) + " time on ssh stream"
  }
  function ExecTryMessage(attempt: nat): string {
    "Trying to execute the command for " + Decimal(attempt) + " time"
  }

  class ConnectSsh {
    const sleepTimeForServerPing: int
    const sleepTimeForServerResponse: int
    const tcptimeout: int
    /** The ping process and the SSH client's transport, scripted. */
    const remote: Remote
    var sshClientConnection: Connection
    var lastStatusMessage: string
    var hostName: string
    /** The durations handed to `time.sleep`, in call order. */
    var sleepLog: seq<int>

    /** Validate, ping, then make the one connect attempt of the chosen method. */
    constructor (credentials: Credentials, remote: Remote, system: string,
                 tcptimeout: int := 60, bannertimeout: int := 30, authtimeout: int := 30,
                 numofattempt: int := 2, responsesleeptime: int := 2)
      modifies remote
      ensures this.remote == remote
      ensures sleepTimeForServerPing == PingSleepSeconds && sleepTimeForServerResponse == responsesleeptime
      ensures this.tcptimeout == tcptimeout
      ensures var e := Establish(credentials, Settings(system, tcptimeout, bannertimeout, authtimeout, numofattempt),
                                 old(remote.state));
        sshClientConnection == e.connection && lastStatusMessage == e.status && hostName == e.hostName
        && remote.state == e.remote && sleepLog == Repeat(PingSleepSeconds, e.sleeps)
    {
      sleepTimeForServerPing := PingSleepSeconds;
      sleepTimeForServerResponse := responsesleeptime;
      this.tcptimeout := tcptimeout;
      this.remote := remote;
      sshClientConnection := NotConnected;
      lastStatusMessage := InitialStatusMessage;
      hostName := "";
      sleepLog := [];
      new;
      var settings := Settings(system, tcptimeout, bannertimeout, authtimeout, numofattempt);
      ghost var r0 := remote.state;
      if credentials.hostname.None? || credentials.username.None? {
        UpdateStatusMessage(MissingCredentialsMessage);
        assert Establish(credentials, settings, r0) == Established(NotConnected, MissingCredentialsMessage, "", 0, r0);
        return;
      }
      hostName := credentials.hostname.value;
      var host := credentials.hostname.value;
      ghost var ping := PingSpec(r0, host);
      var serverStatus := PingServer(host);
      assert hostName == host && sleepLog == Repeat(PingSleepSeconds, ping.sleeps);
      if !serverStatus {
        assert Establish(credentials, settings, r0) == Preflighted(credentials, settings, ping);
        assert Preflighted(credentials, settings, ping) == Established(NotConnected, ping.status, host, ping.sleeps, ping.remote);
        return;
      }
      UpdateStatusMessage(TryingMessage(host));
      sshClientConnection := Client(Fresh);

      ghost var attempt := Attempted(credentials, settings, 0, ping.remote);
      var counter := 0;
      var done := false;
      while counter < numofattempt && !done
        invariant done ==> numofattempt > 0
        invariant hostName == host && sleepLog == Repeat(PingSleepSeconds, ping.sleeps)
        invariant !done ==> counter == 0 && sshClientConnection == Client(Fresh)
                            && lastStatusMessage == TryingMessage(host) && remote.state == ping.remote
        invariant done ==> sshClientConnection == attempt.connection && lastStatusMessage == attempt.status
                           && remote.state == attempt.remote
        modifies this`lastStatusMessage, this`sshClientConnection, remote
        decreases if done then 0 else 1
      {
        var raised := AttemptConnect(credentials, settings);
        if raised {
          counter := counter + 1;
        }
        // Every branch of the attempt returns from the constructor.
        done := true;
      }
      if !done {
        // The loop was never entered: the fresh client is closed and dropped.
        sshClientConnection := NotConnected;
      }
      assert Establish(credentials, settings, r0) == Preflighted(credentials, settings, ping);
      assert Preflighted(credentials, settings, ping)
          == Established(sshClientConnection, lastStatusMessage, host, ping.sleeps, remote.state);
    }

    /** One pass of the constructor's attempt loop: the strategy of highest priority
        makes one `connect` call, or none applies; `raised` tells whether the call
        raised an exception. */
    method AttemptConnect(credentials: Credentials, settings: Settings) returns (raised: bool)
      requires Validated(credentials)
      modifies this`lastStatusMessage, this`sshClientConnection, remote
      ensures var e := Attempted(credentials, settings, 0, old(remote.state));
        sshClientConnection == e.connection && lastStatusMessage == e.status && remote.state == e.remote
      ensures raised <==> sshClientConnection == NotConnected && !SelectStrategy(credentials, settings.system).NoMatchingMethod?
    {
      var host := credentials.hostname.value;
      // The if/elif chain on the credentials' keys and the platform.
      var strategy := SelectStrategy(credentials, settings.system);
      if strategy.NoMatchingMethod? {
        UpdateStatusMessage(NoMethodMessage(host));
        sshClientConnection := NotConnected;
        return false;
      }
      UpdateStatusMessage(TriggeredMessage(strategy, host));
      var request := RequestFor(host, PortOf(credentials), credentials.username.value, strategy, settings);
      var outcome := remote.Connect(request);
      match outcome {
        case Accepted =>
          UpdateStatusMessage(ConnectedMessage(host));
          sshClientConnection := Client(Connected);
          raised := false;
        case AuthRejected =>
          UpdateStatusMessage(AuthProblemMessage);
          sshClientConnection := NotConnected;
          raised := true;
        case ConnectError(reason) =>
          sshClientConnection := NotConnected;
          UpdateStatusMessage(ErrorMessage(reason));
          raised := true;
      }
    }

    /** `updateStatusMessage`, without the console echo of verbose mode. */
    method UpdateStatusMessage(message: string)
      modifies this`lastStatusMessage
      ensures lastStatusMessage == message
    {
      lastStatusMessage := message;
    }

    /** `time.sleep(seconds)`: the call is recorded, no time passes. */
    method Sleep(seconds: int)
      modifies this`sleepLog
      ensures sleepLog == old(sleepLog) + [seconds]
    {
      sleepLog := sleepLog + [seconds];
    }

    /** `closeSSHConnection`: a client, whatever its state, is closed and the status says so. */
    method CloseSSHConnection()
      modifies this`lastStatusMessage, this`sshClientConnection
      ensures old(sshClientConnection) == NotConnected ==>
                sshClientConnection == NotConnected && lastStatusMessage == old(lastStatusMessage)
      ensures old(sshClientConnection) != NotConnected ==>
                sshClientConnection == Client(Closed) && lastStatusMessage == ClosedMessage(hostName)
    {
      if sshClientConnection != NotConnected {
        UpdateStatusMessage(ClosedMessage(hostName));
        sshClientConnection := Client(Closed);
      }
    }

    /** `pingServer`: up to three pings, with a sleep after each failed one. */
    method PingServer(host: string) returns (pingResult: bool)
      modifies this`lastStatusMessage, this`sleepLog, remote
      ensures var p := PingSpec(old(remote.state), host);
        pingResult == p.up && lastStatusMessage == p.status && remote.state == p.remote
        && sleepLog == old(sleepLog) + Repeat(sleepTimeForServerPing, p.sleeps)
    {
      ghost var r0 := remote.state;
      pingResult := false;
      for n := 0 to PingAttempts
        invariant remote.state == r0.(ping := Advance(r0.ping, n), pinged := r0.pinged + Repeat(host, n))
        invariant sleepLog == old(sleepLog) + Repeat(sleepTimeForServerPing, n)
        invariant forall k: nat :: k < n ==> !Answer(r0.ping, k, false)
        invariant !pingResult
      {
        UpdateStatusMessage(PingingMessage(host));
        var replied := remote.Ping(host);
        assert remote.state == r0.(ping := Advance(r0.ping, n + 1), pinged := r0.pinged + Repeat(host, n + 1))
            && replied == Answer(r0.ping, n, false);
        if replied {
          pingResult := true;
          FirstTrueAt(r0.ping, PingAttempts, n);
          break;
        }
        UpdateStatusMessage(PingAttemptFailedMessage(n + 1, host));
        Sleep(sleepTimeForServerPing);
      }
      if !pingResult {
        FirstTrueNone(r0.ping, PingAttempts);
      }
      if pingResult {
        UpdateStatusMessage(PingSuccessMessage(host));
      } else {
        UpdateStatusMessage(PingFailedMessage(host));
      }
    }

    /** `receiveDataFromSshStream`: up to two receive calls on the stream `readType`
        names, stopping at the first that returns data, with a sleep after each that
        returns nothing; any other `readType` reads nothing. */
    method ReceiveDataFromSshStream(stream: ScriptedChannel, readType: string, bufferSize: nat)
      returns (outputText: string)
      modifies stream, this`sleepLog
      ensures readType == "stdout" ==>
        var s := ReceiveSpec(old(stream.state), Stdout);
        outputText == s.value && stream.state == s.chan
        && sleepLog == old(sleepLog) + Repeat(sleepTimeForServerResponse, s.sleeps)
      ensures readType == "stderr" ==>
        var s := ReceiveSpec(old(stream.state), Stderr);
        outputText == s.value && stream.state == s.chan
        && sleepLog == old(sleepLog) + Repeat(sleepTimeForServerResponse, s.sleeps)
      ensures readType != "stdout" && readType != "stderr" ==>
        outputText == "" && stream.state == old(stream.state) && sleepLog == old(sleepLog)
    {
      outputText := "";
      if readType != "stdout" && readType != "stderr" {
        return;
      }
      var kind := if readType == "stdout" then Stdout else Stderr;
      ghost var c0 := stream.state;
      ghost var f := DataFeed(c0, kind);
      for n := 0 to ReceiveAttempts
        invariant stream.state == WithDataFeed(c0, kind, Advance(f, n))
        invariant sleepLog == old(sleepLog) + Repeat(sleepTimeForServerResponse, n)
        invariant forall k: nat :: k < n ==> Answer(f, k, "") == ""
        invariant outputText == ""
      {
        outputText := stream.Receive(kind, bufferSize);
        assert stream.state == WithDataFeed(c0, kind, Advance(f, n + 1)) && outputText == Answer(f, n, "");
        if outputText != "" {
          ReceiveSpecAt(c0, kind, n);
          return;
        }
        Sleep(sleepTimeForServerResponse);
      }
      ReceiveSpecNone(c0, kind);
    }

    /** One of the two readiness loops of `readSshStream`: up to three polls of the
        stream's readiness flag, a sleep after each negative one, and a receive once
        the stream is ready. */
    method AwaitAndReceive(stream: ScriptedChannel, kind: StreamKind, bufferSize: nat) returns (text: string)
      modifies stream, this`sleepLog
      ensures var s := PollThenReceive(old(stream.state), kind);
        text == s.value && stream.state == s.chan
        && sleepLog == old(sleepLog) + Repeat(sleepTimeForServerResponse, s.sleeps)
    {
      text := "";
      ghost var c0 := stream.state;
      ghost var f := ReadyFeed(c0, kind);
      for n := 0 to ReadPolls
        invariant stream.state == WithReadyFeed(c0, kind, Advance(f, n))
        invariant sleepLog == old(sleepLog) + Repeat(sleepTimeForServerResponse, n)
        invariant forall k: nat :: k < n ==> !Answer(f, k, false)
        invariant text == ""
      {
        var ready := stream.Ready(kind);
        assert stream.state == WithReadyFeed(c0, kind, Advance(f, n + 1)) && ready == Answer(f, n, false);
        if ready {
          ghost var c1 := stream.state;
          if kind == Stdout {
            text := ReceiveDataFromSshStream(stream, "stdout", bufferSize);
          } else {
            text := ReceiveDataFromSshStream(stream, "stderr", bufferSize);
          }
          PollThenReceiveAt(c0, kind, n);
          RepeatAppend(old(sleepLog), sleepTimeForServerResponse, n, ReceiveSpec(c1, kind).sleeps);
          return;
        }
        Sleep(sleepTimeForServerResponse);
      }
      PollThenReceiveNone(c0, kind);
    }

    /** `readSshStream`: a first sleep, then the standard-output loop, then the
        standard-error loop, whose data is appended to the standard output. */
    method ReadSshStream(stream: ScriptedChannel, bufferSize: nat) returns (stdout: string, stderr: string)
      modifies stream, this`sleepLog, this`lastStatusMessage
      ensures var s := ReadSpec(old(stream.state));
        Output(stdout, stderr) == s.value && stream.state == s.chan
        && sleepLog == old(sleepLog) + Repeat(sleepTimeForServerResponse, s.sleeps)
      ensures lastStatusMessage == ReadingMessage
    {
      stdout, stderr := "", "";
      ghost var c0 := stream.state;
      UpdateStatusMessage(ReadingMessage);
      Sleep(sleepTimeForServerResponse);
      assert sleepLog == old(sleepLog) + Repeat(sleepTimeForServerResponse, 1);
      ghost var a := PollThenReceive(c0, Stdout);
      var text := AwaitAndReceive(stream, Stdout, bufferSize);
      stdout := stdout + text;
      ghost var b := PollThenReceive(a.chan, Stderr);
      text := AwaitAndReceive(stream, Stderr, bufferSize);
      stdout := stdout + text;
      RepeatAppend(old(sleepLog), sleepTimeForServerResponse, 1, a.sleeps);
      RepeatAppend(old(sleepLog), sleepTimeForServerResponse, 1 + a.sleeps, b.sleeps);
    }

    /** `executeCommandOnSshStream`: refused without a connection; otherwise up to two
        send-readiness polls, then the command is sent with a carriage return whatever
        the polls said, and the stream is read. */
    method ExecuteCommandOnSshStream(stream: ScriptedChannel, command: string) returns (stdout: string, stderr: string)
      modifies stream, this`sleepLog, this`lastStatusMessage
      ensures var s := SendSpec(sshClientConnection != NotConnected, old(stream.state), command);
        Output(stdout, stderr) == s.value && stream.state == s.chan
        && sleepLog == old(sleepLog) + Repeat(sleepTimeForServerResponse, s.sleeps)
      ensures lastStatusMessage == if sshClientConnection == NotConnected then InvalidConnectionMessage else ReadingMessage
    {
      stdout, stderr := "", "";
      if sshClientConnection == NotConnected {
        UpdateStatusMessage(InvalidConnectionMessage);
        return;
      }
      // The outer loop of two attempts: its first pass always returns.
      for attempt := 0 to 2
        invariant attempt == 0
      {
        ghost var c0 := stream.state;
        var polls, ready := AwaitSendReady(stream);
        ghost var misses := Misses(Poll(polls, ready));
        // The message reports the inner loop's counter, that is the number of polls.
        UpdateStatusMessage(InjectingMessage(polls));
        stream.Send(command + Terminator);
        ghost var c1 := stream.state;
        assert c1 == c0.(sendReady := Advance(c0.sendReady, polls), sent := c0.sent + [command + Terminator]);
        assert SendSpec(true, c0, command) == Step(ReadSpec(c1).value, ReadSpec(c1).chan, misses + ReadSpec(c1).sleeps);
        stdout, stderr := ReadSshStream(stream, BufferSize);
        RepeatAppend(old(sleepLog), sleepTimeForServerResponse, misses, ReadSpec(c1).sleeps);
        return;
      }
    }

    /** The inner loop of `executeCommandOnSshStream`: up to two polls of the
        send-readiness flag, with a sleep after each negative one. */
    method AwaitSendReady(stream: ScriptedChannel) returns (polls: nat, ready: bool)
      modifies stream, this`sleepLog
      ensures FirstTrue(old(stream.state.sendReady), SendReadyPolls) == Poll(polls, ready)
      ensures stream.state == old(stream.state).(sendReady := Advance(old(stream.state.sendReady), polls))
      ensures sleepLog == old(sleepLog) + Repeat(sleepTimeForServerResponse, Misses(Poll(polls, ready)))
    {
      ghost var c0 := stream.state;
      ghost var f := c0.sendReady;
      polls, ready := 0, false;
      for n := 0 to SendReadyPolls
        invariant stream.state == c0.(sendReady := Advance(f, n))
        invariant sleepLog == old(sleepLog) + Repeat(sleepTimeForServerResponse, n)
        invariant forall k: nat :: k < n ==> !Answer(f, k, false)
        invariant polls == n && !ready
      {
        ready := stream.SendReady();
        assert stream.state == c0.(sendReady := Advance(f, n + 1)) && ready == Answer(f, n, false);
        polls := n + 1;
        if ready {
          FirstTrueAt(f, SendReadyPolls, n);
          return;
        }
        Sleep(sleepTimeForServerResponse);
      }
      FirstTrueNone(f, SendReadyPolls);
    }

    /** `executeCommandOnSshStreamWithFullOutput`: run the command on the stream, and
        while the last line of what came back holds the `--More--` marker, drop that line,
        keep the others and send a space for the next page; then join every kept line
        with CRLF and return it with the last page's standard error. */
    method ExecuteCommandOnSshStreamWithFullOutput(stream: ScriptedChannel, command: string)
      returns (stdout: string, stderr: string)
      modifies stream, this`sleepLog, this`lastStatusMessage
      ensures var s := FullOutputSpec(sshClientConnection != NotConnected, old(stream.state), command);
        Output(stdout, stderr) == s.value && stream.state == s.chan
        && sleepLog == old(sleepLog) + Repeat(sleepTimeForServerResponse, s.sleeps)
      ensures lastStatusMessage == if sshClientConnection == NotConnected then InvalidConnectionMessage else ReadingMessage
    {
      ghost var connected := sshClientConnection != NotConnected;
      ghost var base := sleepLog;
      ghost var c0 := stream.state;
      ghost var first := SendSpec(connected, c0, command);
      ghost var more := MorePages(connected, first.chan, first.value);
      assert FullOutputSpec(connected, c0, command)
          == Step(Collect([first.value] + more.value), more.chan, first.sleeps + more.sleeps);
      stdout, stderr := ExecuteCommandOnSshStream(stream, command);
      if stdout == "" {
        EmptyAwaitsNothing();
        assert more == Step([], first.chan, 0);
        return;
      }
      ghost var total;
      stdout, stderr, total := FetchRemainingPages(stream, Output(stdout, stderr), base, first.sleeps);
    }

    /** The paging loop of `executeCommandOnSshStreamWithFullOutput`, from the first
        non-empty page on. */
    method FetchRemainingPages(stream: ScriptedChannel, page: Output, ghost base: seq<int>, ghost slept: nat)
      returns (stdout: string, stderr: string, ghost total: nat)
      requires sshClientConnection != NotConnected && page.out != ""
      requires sleepLog == base + Repeat(sleepTimeForServerResponse, slept)
      requires lastStatusMessage == ReadingMessage
      modifies stream, this`sleepLog, this`lastStatusMessage
      ensures var more := MorePages(true, old(stream.state), page);
        Output(stdout, stderr) == Collect([page] + more.value) && stream.state == more.chan
        && total == slept + more.sleeps
      ensures sleepLog == base + Repeat(sleepTimeForServerResponse, total)
      ensures lastStatusMessage == ReadingMessage
    {
      ghost var more := MorePages(true, stream.state, page);
      ghost var pages := [page] + more.value;
      ghost var goal := Step(pages, more.chan, slept + more.sleeps);
      stdout, stderr := page.out, page.err;
      var lines := Split(stdout);
      var lastLine := Last(lines);
      var fullStdout: seq<string> := [];
      ghost var done: seq<Output> := [];
      total := slept;
      while Contains(lastLine, MoreMarker)
        invariant lines == Split(stdout) && lastLine == Last(lines)
        invariant fullStdout == Dropped(done)
        invariant more == MorePages(true, stream.state, Output(stdout, stderr))
        invariant pages == done + ([Output(stdout, stderr)] + more.value)
        invariant more.chan == goal.chan && total + more.sleeps == goal.sleeps
        invariant sleepLog == base + Repeat(sleepTimeForServerResponse, total)
        invariant lastStatusMessage == ReadingMessage
        decreases |more.value|
      {
        ghost var page := Output(stdout, stderr);
        ghost var c := stream.state;
        ghost var next := SendSpec(true, c, ContinueKey);
        ghost var rest := MorePages(true, next.chan, next.value);
        assert more == Step([next.value] + rest.value, rest.chan, next.sleeps + rest.sleeps);
        AppendAssoc(done, [page], more.value);
        fullStdout := fullStdout + DropLast(lines);
        DroppedSnoc(done, page);
        done := done + [page];
        stdout, stderr, total := RequestNextPage(stream, base, total);
        more := rest;
        lines := Split(stdout);
        lastLine := Last(lines);
      }
      ghost var last := Output(stdout, stderr);
      assert more == Step([], stream.state, 0);
      assert pages == done + [last];
      CollectPages(done, last);
      fullStdout := fullStdout + lines;
      stdout := Join(fullStdout);
    }

    /** One turn of the paging loop: report that more data is coming and send the
        key that asks for the next page. */
    method RequestNextPage(stream: ScriptedChannel, ghost base: seq<int>, ghost slept: nat)
      returns (stdout: string, stderr: string, ghost total: nat)
      requires sshClientConnection != NotConnected
      requires sleepLog == base + Repeat(sleepTimeForServerResponse, slept)
      modifies stream, this`sleepLog, this`lastStatusMessage
      ensures var next := SendSpec(true, old(stream.state), ContinueKey);
        Output(stdout, stderr) == next.value && stream.state == next.chan
        && total == slept + next.sleeps
      ensures sleepLog == base + Repeat(sleepTimeForServerResponse, total)
      ensures lastStatusMessage == ReadingMessage
    {
      UpdateStatusMessage(MoreDataMessage);
      ghost var before := sleepLog;
      stdout, stderr := ExecuteCommandOnSshStream(stream, ContinueKey);
      total := slept + SendSpec(true, old(stream.state), ContinueKey).sleeps;
      LogExtends(base, before, sleepLog, sleepTimeForServerResponse, slept,
        SendSpec(true, old(stream.state), ContinueKey).sleeps);
    }
    /** `getSshStream`: nothing without a connection; when `invoke_shell` fails, the
        error is reported; otherwise up to three readiness polls of the new shell, each
        after a sleep, and on the first ready one the remote echo is turned off and the
        shell is handed out. `invokeError` is the failure `invoke_shell` raises, if any. */
    method GetSshStream(shell: ScriptedChannel, invokeError: Option<string>) returns (stream: Option<ScriptedChannel>)
      modifies shell, this`sleepLog, this`lastStatusMessage
      ensures var s := OpenSpec(sshClientConnection != NotConnected, invokeError.None?, old(shell.state));
        (stream.Some? <==> s.value) && (stream.Some? ==> stream.value == shell)
        && shell.state == s.chan
        && sleepLog == old(sleepLog) + Repeat(sleepTimeForServerResponse, s.sleeps)
      ensures lastStatusMessage ==
        if sshClientConnection == NotConnected then old(lastStatusMessage)
        else if invokeError.Some? then ErrorMessage(invokeError.value)
        else if stream.Some? then ReadingMessage
        else NoStreamMessage
    {
      stream := None;
      if sshClientConnection == NotConnected {
        return;
      }
      if invokeError.Some? {
        UpdateStatusMessage(NoStreamMessage);
        UpdateStatusMessage(ErrorMessage(invokeError.value));
        return;
      }
      ghost var c0 := shell.state;
      var polls, ready := AwaitShellReady(shell);
      if !ready {
        UpdateStatusMessage(NoStreamMessage);
        return;
      }
      UpdateStatusMessage(StreamCreatedMessage);
      ghost var c1 := shell.state;
      var echoOut, echoErr := ExecuteCommandOnSshStream(shell, EchoOffCommand);
      RepeatAppend(old(sleepLog), sleepTimeForServerResponse, polls, SendSpec(true, c1, EchoOffCommand).sleeps);
      stream := Some(shell);
    }

    /** The readiness loop of `getSshStream`: up to three polls of the new shell, each
        after a sleep, stopping at the first ready one. */
    method AwaitShellReady(shell: ScriptedChannel) returns (polls: nat, ready: bool)
      modifies shell, this`sleepLog
      ensures FirstTrue(old(shell.state.recvReady), OpenPolls) == Poll(polls, ready)
      ensures shell.state == old(shell.state).(recvReady := Advance(old(shell.state.recvReady), polls))
      ensures sleepLog == old(sleepLog) + Repeat(sleepTimeForServerResponse, polls)
    {
      ghost var c0 := shell.state;
      ghost var f := c0.recvReady;
      for n := 0 to OpenPolls
        invariant shell.state == c0.(recvReady := Advance(f, n))
        invariant sleepLog == old(sleepLog) + Repeat(sleepTimeForServerResponse, n)
        invariant forall k: nat :: k < n ==> !Answer(f, k, false)
      {
        Sleep(sleepTimeForServerResponse);
        ready := shell.Ready(Stdout);
        assert shell.state == c0.(recvReady := Advance(f, n + 1)) && ready == Answer(f, n, false);
        if ready {
          FirstTrueAt(f, OpenPolls, n);
          return n + 1, true;
        }
      }
      FirstTrueNone(f, OpenPolls);
      return OpenPolls, false;
    }

    /** `executeCommand`: refused without a connection; otherwise up to two
        `exec_command` attempts, then a wait for the exit status, one sleep per
        negative poll, and the joined lines of standard output and standard error. */
    method ExecuteCommand(command: string) returns (stdout: string, stderr: string)
      modifies remote, this`sleepLog, this`lastStatusMessage
      ensures var x := ExecSpec(sshClientConnection != NotConnected, old(remote.state), command);
        Output(stdout, stderr) == x.output && lastStatusMessage == x.status && remote.state == x.remote
        && sleepLog == old(sleepLog) + Repeat(sleepTimeForServerResponse, x.sleeps)
    {
      stdout, stderr := "", "";
      if sshClientConnection == NotConnected {
        UpdateStatusMessage(InvalidConnectionMessage);
        return;
      }
      ghost var r0 := remote.state;
      var outcome, attempts := TryExecCommand(command);
      if !outcome.ExecOpened? {
        ExecSpecFailed(r0, command);
        UpdateStatusMessage(ExecFailedMessage);
        return;
      }
      ExecSpecOpened(r0, command, attempts - 1);
      UpdateStatusMessage(PleaseWaitMessage);
      AwaitExitStatus();
      RepeatAppend(old(sleepLog), sleepTimeForServerResponse, attempts - 1, outcome.pendingPolls);
      UpdateStatusMessage(ExecFinishedMessage);
      stdout := if |outcome.stdoutLines| > 0 then Concat(outcome.stdoutLines) else "";
      stderr := if |outcome.stderrLines| > 0 then Concat(outcome.stderrLines) else "";
    }

    /** The exit-status wait of `executeCommand`: poll until the status is ready, with a
        sleep after each negative poll. */
    method AwaitExitStatus()
      modifies remote, this`sleepLog
      ensures remote.state == old(remote.state).(pendingExit := 0,
                exitPolls := old(remote.state.exitPolls) + old(remote.state.pendingExit) + 1)
      ensures sleepLog == old(sleepLog) + Repeat(sleepTimeForServerResponse, old(remote.state.pendingExit))
    {
      ghost var r0 := remote.state;
      ghost var pending := r0.pendingExit;
      ghost var waited: nat := 0;
      var ready := remote.ExitStatusReady();
      while !ready
        invariant waited <= pending
        invariant ready <==> waited == pending
        invariant remote.state == r0.(pendingExit := if ready then 0 else pending - waited - 1,
                                      exitPolls := r0.exitPolls + waited + 1)
        invariant sleepLog == old(sleepLog) + Repeat(sleepTimeForServerResponse, waited)
        decreases pending - waited
      {
        Sleep(sleepTimeForServerResponse);
        waited := waited + 1;
        ready := remote.ExitStatusReady();
      }
    }

    /** The attempt loop of `executeCommand`: an `exec_command` call per attempt, and
        after a failed one its error is reported and the client sleeps, until a channel
        opens or both attempts are spent. */
    method TryExecCommand(command: string) returns (outcome: ExecOutcome, attempts: nat)
      modifies remote, this`sleepLog, this`lastStatusMessage
      ensures var f := old(remote.state.exec);
        1 <= attempts <= ExecAttempts
        && (forall k: nat :: k < attempts - 1 ==> !Answer(f, k, ExecError(Unscripted)).ExecOpened?)
        && outcome == Answer(f, attempts - 1, ExecError(Unscripted))
        && (!outcome.ExecOpened? ==> attempts == ExecAttempts)
      ensures remote.state == old(remote.state).(
                exec := Advance(old(remote.state.exec), attempts),
                commands := old(remote.state.commands) + Repeat(command, attempts),
                pendingExit := if outcome.ExecOpened? then outcome.pendingPolls else old(remote.state.pendingExit))
      ensures sleepLog == old(sleepLog) + Repeat(sleepTimeForServerResponse, if outcome.ExecOpened? then attempts - 1 else attempts)
    {
      ghost var r0 := remote.state;
      ghost var f := r0.exec;
      attempts := 0;
      outcome := ExecError(Unscripted);
      while attempts < ExecAttempts
        invariant attempts <= ExecAttempts
        invariant remote.state == r0.(exec := Advance(f, attempts), commands := r0.commands + Repeat(command, attempts))
        invariant sleepLog == old(sleepLog) + Repeat(sleepTimeForServerResponse, attempts)
        invariant forall k: nat :: k < attempts ==> !Answer(f, k, ExecError(Unscripted)).ExecOpened?
        invariant attempts > 0 ==> outcome == Answer(f, attempts - 1, ExecError(Unscripted))
      {
        UpdateStatusMessage(ExecTryMessage(attempts + 1));
        outcome := remote.ExecCommand(command);
        assert outcome == Answer(f, attempts, ExecError(Unscripted));
        attempts := attempts + 1;
        if outcome.ExecOpened? {
          return;
        }
        UpdateStatusMessage(ErrorMessage(outcome.reason));
        Sleep(sleepTimeForServerResponse);
      }
    }
  }
}

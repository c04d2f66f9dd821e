# ConnectSSH, modelled in Dafny

`SSHLib/ConnectSSH.py` wraps a paramiko SSH client in a class, `ConnectSSH`, that
makes connecting and running commands more tolerant of slow servers. The constructor
checks that the credentials name a host and a user, pings the host up to three times,
and then connects with one authentication method chosen by a fixed priority:
a password, then a key file, then the default key `~/.ssh/id_rsa` on Linux and SunOS.
After that the object runs commands in one of two ways.

- One-shot: `executeCommand` uses `exec_command`. It makes up to two attempts,
  stopping at the first opened channel, then waits for the exit status and joins the
  output lines.
- Interactive shell stream: `getSshStream` opens the stream and
  `executeCommandOnSshStream` sends a command and reads the reply. Each step polls
  readiness flags a bounded number of times and sleeps in between.
  `executeCommandOnSshStreamWithFullOutput` follows `--More--` pagination. It sends a
  space for each further page and joins the pages without their marker lines.

The model keeps this decision and retry logic and replaces the environment with
scripted doubles (module `Oracle`).

- `Remote` stands for the ping process, the SSH client's `connect` and `exec_command`,
  and the command channel's exit-status flag.
- `ScriptedChannel` stands for an interactive channel: its `send_ready`, `recv_ready`
  and `recv_stderr_ready` flags, its `recv` and `recv_stderr` chunks, and a log of
  what was sent.
- Each double answers from a finite script, a `Feed`. A feed that has run out answers
  "no" (`false`, empty data, or an error).
- `time.sleep` is recorded in `sleepLog`, the list of durations requested. No time
  passes.

The files:

- `text.dfy` (module `Text`): Python's `split('\r\n')` and `'\r\n'.join(...)` on
  strings, their round trips (`JoinSplit`, `SplitJoin`), substring search, and the
  decimal rendering of attempt numbers.
- `oracle.dfy` (module `Oracle`): feeds and the scripted doubles. It also holds
  `FirstHit` and `FirstTrue`, the function form of the source's recurring loop
  "try at most *n* times, stop at the first good answer". Lemmas characterise them
  exactly.
- `session.dfy` (module `Session`): the constructor and `executeCommand` as functions
  of the credentials, the settings and the remote script (`Establish`, `PingSpec`,
  `ExecSpec`), together with the lemmas that state their properties.
- `stream.dfy` (module `Stream`): the stream operations as functions of the channel
  state (`ReceiveSpec`, `PollThenReceive`, `ReadSpec`, `SendSpec`, `MorePages`,
  `FullOutputSpec`, `OpenSpec`), together with their lemmas.
- `pagination.dfy` (module `Pagination`): the pure core of paging. `Collect` turns
  the list of pages received into the returned output.
- `connect_ssh.dfy` (module `ConnectSSH`): the class `ConnectSsh`, with the source's
  fields and one method per source method.
  - Every method works step by step with the source's loops, and its `ensures` ties
    the final fields, channel state and sleep log to the function of `Session` or
    `Stream` that specifies it.
  - Some loops are factored into helper methods of their own: `AttemptConnect`,
    `AwaitAndReceive`, `AwaitSendReady`, `FetchRemainingPages`, `RequestNextPage`,
    `AwaitShellReady`, `TryExecCommand` and `AwaitExitStatus`.

Behaviour of the source that the model makes explicit:

- **The constructor makes at most one connection attempt, whatever `numofattempt` is,
  and exactly one when the connect step is reached** (`SingleConnectAttempt`,
  `RetryBudgetUnused`). Every branch inside its `while` loop returns. There is no
  attempt when the credentials are missing, the ping fails, no method applies
  (`NoMethodDisconnects`) or `numofattempt <= 0`.
  - The bound only matters when `numofattempt <= 0`: then the loop is skipped, and the
    fresh client is dropped with the status still "Trying to connect...".
  - The model writes this loop with a `done` flag in its guard, because each pass of
    the source loop ends by leaving the loop.
- **`readSshStream` appends the standard-error chunk to the standard output** and
  always returns an empty standard error (`ReadBounds`, `ReadDeliversQueued`).
  So `executeCommandOnSshStreamWithFullOutput` keeps only the last page's standard
  error, and that is always empty (`FullOutputResult`).
- **`executeCommandOnSshStream`'s outer loop of two never runs twice**, because its body
  always returns.
  - Its inner loop reuses the name `n`, so the message "Injecting the command for N
    time" counts send-readiness polls, not send attempts. `InjectingMessage(polls)`
    models this.
  - The send happens whether or not a poll saw the channel ready.

## Model

| member | source | states |
|---|---|---|
| ConnectSSH.ConnectSsh.constructor | SSHLib/ConnectSSH.py:22-134 | Sets the fixed fields, including a ping sleep of 3 seconds. Connection, last status, host name, remote state and sleep log are exactly those of `Establish`: validate, ping, then at most one connect attempt. |
| ConnectSSH.ConnectSsh.AttemptConnect | SSHLib/ConnectSSH.py:53-128 | One pass of the attempt loop leaves the state `Attempted` gives. The pass raised exactly when a strategy applied and the client ended dropped. |
| ConnectSSH.ConnectSsh.UpdateStatusMessage | SSHLib/ConnectSSH.py:142-149 | The last status becomes the message. |
| ConnectSSH.ConnectSsh.CloseSSHConnection | SSHLib/ConnectSSH.py:136-140 | A client in any state is closed and the status names the host. Without a client nothing changes. |
| ConnectSSH.ConnectSsh.PingServer | SSHLib/ConnectSSH.py:151-177 | Result, final status, remote state and sleeps of 3 seconds are exactly `PingSpec`'s. |
| ConnectSSH.ConnectSsh.GetSshStream | SSHLib/ConnectSSH.py:179-203 | Hands out the shell exactly when `OpenSpec` says so, with `OpenSpec`'s channel state and sleeps. The status is unchanged without a connection, the error text when `invoke_shell` fails, and otherwise the reading or the no-stream message. |
| ConnectSSH.ConnectSsh.AwaitShellReady | SSHLib/ConnectSSH.py:186-196 | Sleeps before each of up to three readiness polls and stops at the first ready one; the polls and the result are `FirstTrue`'s. |
| ConnectSSH.ConnectSsh.ReadSshStream | SSHLib/ConnectSSH.py:205-228 | The returned pair, the channel and the sleeps are exactly `ReadSpec`'s, and the status reads "Reading the ssh stream...". |
| ConnectSSH.ConnectSsh.AwaitAndReceive | SSHLib/ConnectSSH.py:212-226 | One readiness loop of the read does exactly what `PollThenReceive` says. |
| ConnectSSH.ConnectSsh.ReceiveDataFromSshStream | SSHLib/ConnectSSH.py:235-257 | For "stdout" and "stderr", the text, channel and sleeps are `ReceiveSpec`'s on that stream. Any other read type returns "" and touches nothing. |
| ConnectSSH.ConnectSsh.ExecuteCommandOnSshStream | SSHLib/ConnectSSH.py:259-293 | Output, channel and sleeps are exactly `SendSpec`'s. The status is the invalid-connection message without a connection and the reading message with one. |
| ConnectSSH.ConnectSsh.AwaitSendReady | SSHLib/ConnectSSH.py:270-275 | Up to two send-readiness polls with a sleep after each negative one; the count and result are `FirstTrue`'s. |
| ConnectSSH.ConnectSsh.ExecuteCommandOnSshStreamWithFullOutput | SSHLib/ConnectSSH.py:295-319 | Output, channel and sleeps are exactly `FullOutputSpec`'s: the collected pages. |
| ConnectSSH.ConnectSsh.FetchRemainingPages | SSHLib/ConnectSSH.py:302-319 | From a non-empty first page, the loop returns `Collect` of that page and the `MorePages` that follow it, and leaves `MorePages`' channel and sleeps. |
| ConnectSSH.ConnectSsh.RequestNextPage | SSHLib/ConnectSSH.py:306-311 | One turn of the paging loop sends the continue key, as `SendSpec` says, and extends the sleep log by its sleeps. |
| ConnectSSH.ConnectSsh.ExecuteCommand | SSHLib/ConnectSSH.py:321-368 | Output, final status, remote state and sleeps are exactly `ExecSpec`'s. |
| ConnectSSH.ConnectSsh.TryExecCommand | SSHLib/ConnectSSH.py:329-343 | One or two `exec_command` calls, stopping at the first opened channel. When none opens, both calls are made and each is followed by a sleep. |
| ConnectSSH.ConnectSsh.AwaitExitStatus | SSHLib/ConnectSSH.py:349-353 | The exit status is polled until ready: one poll more than the pending count, and one sleep per negative poll. |
| Session.SelectStrategy | SSHLib/ConnectSSH.py:55-110 | Password if given; else the key file if given; else the default key on linux or sunos; else no method. Each case holds if and only if its condition does. |
| Session.PingRetry | SSHLib/ConnectSSH.py:151-177 | One to three pings, stopping at the first reply. The host is up if and only if one of the three would reply. One sleep follows each failed ping, and only the ping script and log change. |
| Session.MissingCredentials | SSHLib/ConnectSSH.py:30-32 | Without hostname or username there is no ping, no connect and no sleep, and the status says what is missing. |
| Session.UnreachableHost | SSHLib/ConnectSSH.py:42-45 | A host answering none of three pings gets three pings, three sleeps, no connect call, and the ping-failed status. |
| Session.SingleConnectAttempt | SSHLib/ConnectSSH.py:52-128 | At most one `connect` call, and it is made if and only if the connect step is reached. When made, it carries the request of the highest-priority strategy. |
| Session.NoMethodDisconnects | SSHLib/ConnectSSH.py:55-110 | A reachable host on a non-Unix platform, with neither password nor key file, ends disconnected with the no-method status and no connect call. |
| Session.RetryBudgetUnused | SSHLib/ConnectSSH.py:52-53 | Any `numofattempt` of one or more gives the same result. |
| Session.ConnectedIffAccepted | SSHLib/ConnectSSH.py:112-133 | The session ends connected if and only if the one attempt is accepted, and if and only if the status is "Connected to host: ...". |
| Session.ExecRetry | SSHLib/ConnectSSH.py:321-368 | Without a connection nothing happens. Otherwise the spec makes one or two attempts, stops at the first opened channel and sleeps after each failure. With no channel opened it returns empty output and the failed status. With one opened, it returns the joined lines and waits one sleep per negative exit-status poll. |
| Session.ExecSpecOpened | SSHLib/ConnectSSH.py:329-368 | When the `n`-th attempt is the first to open a channel, the result is that channel's joined output, the finished status, and `n` plus its pending polls as sleeps. |
| Session.ExecSpecFailed | SSHLib/ConnectSSH.py:329-347 | When no attempt opens a channel, two calls are made, with two sleeps, empty output and the failed status. |
| Stream.ReceiveRetry | SSHLib/ConnectSSH.py:235-250 | One or two receive calls. Data is returned if and only if one of them would return some, and then it is the first such chunk. One sleep follows each empty chunk. |
| Stream.ReceiveSpecAt | SSHLib/ConnectSSH.py:238-243 | A receive whose first data comes on call `n` returns it after `n` calls' sleeps. |
| Stream.ReceiveSpecNone | SSHLib/ConnectSSH.py:238-243 | A receive that gets no data makes both calls and both sleeps and returns "". |
| Stream.PollThenReceiveBounds | SSHLib/ConnectSSH.py:212-226 | One to three readiness polls. A receive happens if and only if one of the three polls would see the stream ready. No other stream is touched. |
| Stream.PollThenReceiveAt | SSHLib/ConnectSSH.py:213-216 | When the first positive poll is poll `n`, the receive follows it. |
| Stream.PollThenReceiveNone | SSHLib/ConnectSSH.py:213-218 | When no poll sees the stream ready, nothing is received. |
| Stream.ReadBounds | SSHLib/ConnectSSH.py:205-228 | Per stream: one to three polls and at most two receive calls. Nothing is sent, and the returned standard error is always empty. |
| Stream.ReadDeliversQueued | SSHLib/ConnectSSH.py:213-228 | With both streams ready, the read returns the output chunk followed by the error chunk, after one sleep. |
| Stream.ReadStdoutOnly | SSHLib/ConnectSSH.py:209-228 | With standard output ready and holding data, and standard error never ready in three polls, the read returns just the output chunk, after four sleeps. |
| Stream.SendShape | SSHLib/ConnectSSH.py:259-283 | Without a connection nothing happens. With one: one or two send-readiness polls, then the command once with a carriage return, then the read's result; the standard error is always empty. |
| Stream.MorePagesShape | SSHLib/ConnectSSH.py:302-313 | More pages are fetched if and only if the last line holds `--More--`. Every page received but the last holds the marker. |
| Stream.MorePagesSent | SSHLib/ConnectSSH.py:305-311 | One space with a carriage return is sent per further page, and nothing else. |
| Stream.FullOutputResult | SSHLib/ConnectSSH.py:295-319 | The result is `Collect` of well-formed pages. It has no marker on its last line and an empty standard error, and it sent the command once and then one space per further page. |
| Stream.LastPageErr | SSHLib/ConnectSSH.py:311-319 | The standard error of the last page fetched is empty. |
| Stream.OpenResult | SSHLib/ConnectSSH.py:179-203 | The stream is handed out if and only if there is a connection, the shell opened and one of three polls sees it ready. Only then is `stty -echo` sent. Without a live shell nothing happens. |
| Pagination.Gather | SSHLib/ConnectSSH.py:302-316 | The gathered lines end with the final page's last line. |
| Pagination.CollectPages | SSHLib/ConnectSSH.py:305-319 | Collecting keeps every line but the marker line of each earlier page, then the final page, and the final page's standard error. |
| Pagination.CollectSinglePage | SSHLib/ConnectSSH.py:299-319 | A single page is returned unchanged. |
| Pagination.CollectLines | SSHLib/ConnectSSH.py:302-316 | Splitting the collected output gives back exactly the gathered lines. |
| Pagination.CollectResult | SSHLib/ConnectSSH.py:305-319 | For well-formed pages, the result's last line has no marker and its standard error is the final page's. |
| Pagination.GatherDropsOneLinePerPage | SSHLib/ConnectSSH.py:307-315 | Exactly one line per non-final page is dropped. |
| Pagination.ThreePages | SSHLib/ConnectSSH.py:302-319 | Two marked one-line pages and a final one-line page collect to the three lines joined by CRLF, with the last standard error. |
| Pagination.ThreePageExample | SSHLib/ConnectSSH.py:302-319 | `line1`, `line2`, `line3` across three pages collect to `line1\r\nline2\r\nline3`. |
| Text.JoinSplit | SSHLib/ConnectSSH.py:302-316 | Joining the split of a string with CRLF gives the string back. |
| Text.SplitJoin | SSHLib/ConnectSSH.py:302-316 | Splitting the join of CRLF-free lines gives the lines back. |
| Oracle.FirstHitFindsFirst | SSHLib/ConnectSSH.py:238-243 | The bounded retry loop stops at the first good answer within its budget, and exhausts the budget when there is none. |
| Oracle.FirstTrueFindsFirst | SSHLib/ConnectSSH.py:156-169 | The same for the polls on a flag: the first `true` within the budget, and all of the budget when there is none. |

## Left out

- `updateStatusMessage`'s console echo in verbose mode (`print`) is I/O and is not
  modelled. No method takes a `verbose` argument.
- ConnectSSH.ConnectSsh.PingServer: the status "Error occured: <exception text>" that
  follows each failed ping is not modelled, because the ping double answers only
  reachable or not. Each failed ping leaves the "N attempt of ping test failed"
  message, and the final status is the same as the source's.
- The ping command line is not modelled. Neither is its platform-specific `-n`/`-c`
  flag, nor the `subprocess` call.
- ConnectSSH.ConnectSsh.ReceiveDataFromSshStream: `bufferSize` does not truncate the
  chunk. The scripted chunk is returned whole.
- ConnectSSH.ConnectSsh.ReceiveDataFromSshStream: for a read type other than "stdout"
  and "stderr" the model returns "", which is the Python 2 behaviour. On Python 3 the
  source calls `decode('ascii')` on the `str` `''`, which raises `AttributeError` to
  the caller. The model has no such exception.
- ConnectSSH.ConnectSsh.AwaitExitStatus: the exit-status wait terminates because every
  opened command carries a finite count of negative polls (`pendingPolls`). A command
  that never exits makes the source's `while not exit_status_ready()` loop spin forever.
  The model cannot represent that, and neither can `ExecuteCommand`.
- ConnectSSH.ConnectSsh.ExecuteCommandOnSshStreamWithFullOutput: the `--More--` loop
  terminates because the channel's scripts are finite (`decreases Unread(c)`): once they
  run out, a page is empty and holds no marker. A server that keeps sending marker pages
  makes the source loop forever. The model cannot represent that.
- The `decode('ascii')` of Python 3 and the Python 2 branch are not modelled: text is a
  sequence of characters throughout. The `PythonVersion3` field is not modelled.
- Loading the RSA key (`expanduser`, `RSAKey.from_private_key_file`) is not modelled.
  Neither are `load_system_host_keys`, the host-key policy and `known_hosts`.
  - The connect request records the key path.
  - A key that fails to load raises before `connect` in the source. Here that appears
    as a scripted `ConnectError`, after the request has been recorded.
- The tolerance of exceptions from the channel is not modelled: from the readiness
  flags, `send`, `recv` and `recv_stderr`. This covers the paths they would take:
  - "Failed to read SSH stream" in `readSshStream`;
  - "Problem executing the command on the stream" and the `return False` of
    `executeCommandOnSshStream`;
  - the `stdout == False` test of `executeCommandOnSshStreamWithFullOutput`;
  - an exception during the polls of `getSshStream`.

  Of the exceptions `getSshStream` catches, only a failing `invoke_shell` is modelled,
  through the `invokeError` parameter.
- The "Failed to execute the command" tail of `executeCommandOnSshStream` cannot be
  reached, because the loop body always returns. The model has no such path.
- `exec_command`'s `timeout` and `get_pty` arguments are not modelled, and neither is
  `stdin.close()`. The remote double records only the command text.
- A closed client is still truthy in the source, so later calls go on to paramiko and
  fail there. The model keeps such a client as `Client(Closed)` and lets the scripts
  decide what the later calls return.
- The constructor leaves `hostName` unset when the credentials are incomplete. The model
  sets it to "".
- `examples.py` is not part of this model. It only calls the class.

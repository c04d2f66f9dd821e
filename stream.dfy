/** What the interactive-stream operations do to a scripted channel, as functions:
    the two-attempt receive, the read of both streams after bounded readiness polls,
    the send of one command with its carriage return, the collection of paginated
    output and the opening of the shell stream. The class in module ConnectSSH is
    proved to behave exactly as these functions say. */
module Stream {
  import opened Text
  import opened Oracle
  import opened Pagination

  /** A value computed by an operation, the channel after it, and how many sleeps it took. */
  datatype Step<T> = Step(value: T, chan: ChannelState, sleeps: nat)

  const ReceiveAttempts: nat := 2
  const ReadPolls: nat := 3
  const SendReadyPolls: nat := 2
  const OpenPolls: nat := 3
  const BufferSize: nat := 4048
  const Terminator: string := "\r"
  const ContinueKey: string := " "
  const EchoOffCommand: string := "stty -echo\n"
  const ReadingMessage: string := "Reading the ssh stream..."
  const StreamCreatedMessage: string := "SSH Stream has been created"
  const NoStreamMessage: string := "No response from the server for create SSH stream"
  const MoreDataMessage: string := "Collecting more data as we recieved --More-- on last line"

  /** `receiveDataFromSshStream`: up to two receive calls, stopping at the first that
      returns data, with a sleep after each that returns nothing. */
  function ReceiveSpec(c: ChannelState, kind: StreamKind): (s: Step<string>)
  {
    var f := DataFeed(c, kind);
    var p := FirstHit(f, "", ReceiveAttempts, NonEmpty);
    Step(Answer(f, p.calls - 1, ""), WithDataFeed(c, kind, Advance(f, p.calls)), Misses(p))
  }

  /** A receive makes one or two calls on its stream and touches nothing else; it
      returns data exactly when one of the two calls would, and then the first such
      chunk; it sleeps after each empty chunk. */
  lemma ReceiveRetry(c: ChannelState, kind: StreamKind)
    ensures var s := ReceiveSpec(c, kind);
      var f := DataFeed(c, kind);
      var n := DataFeed(s.chan, kind).calls - f.calls;
      1 <= n <= ReceiveAttempts
      && s.chan == WithDataFeed(c, kind, Advance(f, n))
      && (s.value != "" <==> exists k: nat :: k < ReceiveAttempts && Answer(f, k, "") != "")
      && s.value == Answer(f, n - 1, "")
      && (forall k: nat :: k < n - 1 ==> Answer(f, k, "") == "")
      && (s.value == "" ==> n == ReceiveAttempts)
      && s.sleeps == n - (if s.value != "" then 1 else 0)
  {
    FirstHitFindsFirst(DataFeed(c, kind), "", ReceiveAttempts, NonEmpty);
  }

  /** The receive loop whose first chunk with data is the `n`-th. */
  lemma ReceiveSpecAt(c: ChannelState, kind: StreamKind, n: nat)
    requires n < ReceiveAttempts && Answer(DataFeed(c, kind), n, "") != ""
    requires forall k: nat :: k < n ==> Answer(DataFeed(c, kind), k, "") == ""
    ensures ReceiveSpec(c, kind)
         == Step(Answer(DataFeed(c, kind), n, ""), WithDataFeed(c, kind, Advance(DataFeed(c, kind), n + 1)), n)
  {
    FirstHitUnique(DataFeed(c, kind), "", ReceiveAttempts, NonEmpty, Poll(n + 1, true));
  }

  /** The receive loop that gets no data. */
  lemma ReceiveSpecNone(c: ChannelState, kind: StreamKind)
    requires forall k: nat :: k < ReceiveAttempts ==> Answer(DataFeed(c, kind), k, "") == ""
    ensures ReceiveSpec(c, kind)
         == Step("", WithDataFeed(c, kind, Advance(DataFeed(c, kind), ReceiveAttempts)), ReceiveAttempts)
  {
    FirstHitUnique(DataFeed(c, kind), "", ReceiveAttempts, NonEmpty, Poll(ReceiveAttempts, false));
  }

  /** One of the two loops of `readSshStream`: up to three readiness polls with a sleep
      after each negative one, and one receive once the stream is ready. */
  function PollThenReceive(c: ChannelState, kind: StreamKind): (s: Step<string>)
  {
    var p := FirstTrue(ReadyFeed(c, kind), ReadPolls);
    var c1 := WithReadyFeed(c, kind, Advance(ReadyFeed(c, kind), p.calls));
    if p.hit then
      var r := ReceiveSpec(c1, kind);
      Step(r.value, r.chan, Misses(p) + r.sleeps)
    else Step("", c1, Misses(p))
  }

  /** A readiness loop polls one to three times and receives (with at most two calls)
      exactly when one of the three polls would see the stream ready; it touches no
      other part of the channel. */
  lemma PollThenReceiveBounds(c: ChannelState, kind: StreamKind)
    ensures var s := PollThenReceive(c, kind);
      var polls := ReadyFeed(s.chan, kind).calls - ReadyFeed(c, kind).calls;
      var receives := DataFeed(s.chan, kind).calls - DataFeed(c, kind).calls;
      1 <= polls <= ReadPolls && 0 <= receives <= ReceiveAttempts
      && ((exists k: nat :: k < ReadPolls && Answer(ReadyFeed(c, kind), k, false)) <==> receives > 0)
      && (receives == 0 ==> s.value == "")
      && s.chan == WithDataFeed(WithReadyFeed(c, kind, Advance(ReadyFeed(c, kind), polls)),
                                kind, Advance(DataFeed(c, kind), receives))
  {
    var f := ReadyFeed(c, kind);
    var p := FirstTrue(f, ReadPolls);
    FirstTrueFindsFirst(f, ReadPolls);
    if p.hit {
      ReceiveRetry(WithReadyFeed(c, kind, Advance(f, p.calls)), kind);
    }
  }

  /** The readiness loop whose first positive poll is the `n`-th receives right after it. */
  lemma PollThenReceiveAt(c: ChannelState, kind: StreamKind, n: nat)
    requires n < ReadPolls && Answer(ReadyFeed(c, kind), n, false)
    requires forall k: nat :: k < n ==> !Answer(ReadyFeed(c, kind), k, false)
    ensures var r := ReceiveSpec(WithReadyFeed(c, kind, Advance(ReadyFeed(c, kind), n + 1)), kind);
      PollThenReceive(c, kind) == Step(r.value, r.chan, n + r.sleeps)
  {
    FirstTrueAt(ReadyFeed(c, kind), ReadPolls, n);
  }

  /** The readiness loop that never sees the stream ready receives nothing. */
  lemma PollThenReceiveNone(c: ChannelState, kind: StreamKind)
    requires forall k: nat :: k < ReadPolls ==> !Answer(ReadyFeed(c, kind), k, false)
    ensures PollThenReceive(c, kind)
         == Step("", WithReadyFeed(c, kind, Advance(ReadyFeed(c, kind), ReadPolls)), ReadPolls)
  {
    FirstTrueNone(ReadyFeed(c, kind), ReadPolls);
  }

  /** `readSshStream`: a first sleep, then the standard-output loop, then the
      standard-error loop, whose data is appended to the standard output. */
  function ReadSpec(c: ChannelState): (s: Step<Output>)
  {
    var a := PollThenReceive(c, Stdout);
    var b := PollThenReceive(a.chan, Stderr);
    Step(Output(a.value + b.value, ""), b.chan, 1 + a.sleeps + b.sleeps)
  }

  /** A read makes one to three readiness polls and at most one receive (of at most
      two calls) per stream, sends nothing and always returns an empty standard error. */
  lemma ReadBounds(c: ChannelState)
    ensures var s := ReadSpec(c);
      s.value.err == ""
      && c.recvReady.calls + 1 <= s.chan.recvReady.calls <= c.recvReady.calls + ReadPolls
      && c.stderrReady.calls + 1 <= s.chan.stderrReady.calls <= c.stderrReady.calls + ReadPolls
      && c.recv.calls <= s.chan.recv.calls <= c.recv.calls + ReceiveAttempts
      && c.recvStderr.calls <= s.chan.recvStderr.calls <= c.recvStderr.calls + ReceiveAttempts
      && s.chan.sent == c.sent && s.chan.sendReady == c.sendReady
  {
    PollThenReceiveBounds(c, Stdout);
    PollThenReceiveBounds(PollThenReceive(c, Stdout).chan, Stderr);
  }

  /** A read of a channel whose streams are ready at once returns exactly the queued
      data: the standard-output chunk followed by the standard-error chunk, with
      nothing lost or repeated. */
  lemma ReadDeliversQueued(c: ChannelState, out: string, err: string)
    requires out != "" && err != ""
    requires Answer(c.recvReady, 0, false) && Answer(c.stderrReady, 0, false)
    requires Answer(c.recv, 0, "") == out && Answer(c.recvStderr, 0, "") == err
    ensures ReadSpec(c).value == Output(out + err, "")
    ensures ReadSpec(c).sleeps == 1
  {
    var a := PollThenReceive(c, Stdout);
    assert a.value == out;
    var b := PollThenReceive(a.chan, Stderr);
    assert a.chan.stderrReady == c.stderrReady && a.chan.recvStderr == c.recvStderr;
    assert b.value == err;
  }

  /** A read whose standard output is ready at once and whose standard error never gets
      ready returns just the output chunk, after the first sleep and three for the
      standard-error polls. */
  lemma ReadStdoutOnly(c: ChannelState, out: string)
    requires out != ""
    requires Answer(c.recvReady, 0, false) && Answer(c.recv, 0, "") == out
    requires forall k: nat :: k < ReadPolls ==> !Answer(c.stderrReady, k, false)
    ensures ReadSpec(c).value == Output(out, "")
    ensures ReadSpec(c).sleeps == 1 + ReadPolls
  {
    var a := PollThenReceive(c, Stdout);
    assert a.value == out && a.sleeps == 0;
    assert a.chan.stderrReady == c.stderrReady;
    PollThenReceiveNone(a.chan, Stderr);
  }

  /** `executeCommandOnSshStream`: on a live connection, up to two send-readiness polls
      (advisory only), one send of the command with a carriage return, then one read. */
  function SendSpec(connected: bool, c: ChannelState, command: string): (s: Step<Output>)
  {
    if !connected then Step(Output("", ""), c, 0)
    else
      var p := FirstTrue(c.sendReady, SendReadyPolls);
      var c1 := c.(sendReady := Advance(c.sendReady, p.calls), sent := c.sent + [command + Terminator]);
      var r := ReadSpec(c1);
      Step(r.value, r.chan, Misses(p) + r.sleeps)
  }

  /** Without a connection nothing happens. With one, the send-readiness flag is polled
      once or twice, the command goes out once with its carriage return before the read,
      and the result is that read's; the standard error is always empty. */
  lemma SendShape(connected: bool, c: ChannelState, command: string)
    ensures var s := SendSpec(connected, c, command);
      (!connected ==> s == Step(Output("", ""), c, 0))
      && (connected ==>
            c.sendReady.calls + 1 <= s.chan.sendReady.calls <= c.sendReady.calls + SendReadyPolls
            && s.chan.sent == c.sent + [command + Terminator]
            && s.value == ReadSpec(c.(sendReady := s.chan.sendReady, sent := s.chan.sent)).value)
      && s.value.err == ""
  {
    if connected {
      var p := FirstTrue(c.sendReady, SendReadyPolls);
      ReadBounds(c.(sendReady := Advance(c.sendReady, p.calls), sent := c.sent + [command + Terminator]));
    }
  }

  /** A receive that returns data consumes scripted data. */
  lemma ReceiveProgress(c: ChannelState, kind: StreamKind)
    ensures Remaining(DataFeed(ReceiveSpec(c, kind).chan, kind)) <= Remaining(DataFeed(c, kind))
    ensures ReceiveSpec(c, kind).value != "" ==>
              Remaining(DataFeed(ReceiveSpec(c, kind).chan, kind)) < Remaining(DataFeed(c, kind))
  {
  }

  /** A send whose output is not empty has consumed scripted data; no send adds any. */
  lemma SendProgress(connected: bool, c: ChannelState, command: string)
    ensures Unread(SendSpec(connected, c, command).chan) <= Unread(c)
    ensures SendSpec(connected, c, command).value.out != "" ==> Unread(SendSpec(connected, c, command).chan) < Unread(c)
  {
    if connected {
      var p := FirstTrue(c.sendReady, SendReadyPolls);
      var c1 := c.(sendReady := Advance(c.sendReady, p.calls), sent := c.sent + [command + Terminator]);
      var a := PollThenReceive(c1, Stdout);
      var c2 := WithReadyFeed(c1, Stdout, Advance(c1.recvReady, FirstTrue(c1.recvReady, ReadPolls).calls));
      if FirstTrue(c1.recvReady, ReadPolls).hit {
        ReceiveProgress(c2, Stdout);
      }
      var b := PollThenReceive(a.chan, Stderr);
      var q := FirstTrue(a.chan.stderrReady, ReadPolls);
      var c3 := WithReadyFeed(a.chan, Stderr, Advance(a.chan.stderrReady, q.calls));
      if q.hit {
        ReceiveProgress(c3, Stderr);
      }
    }
  }

  /** An empty output never asks for another page. */
  lemma EmptyAwaitsNothing()
    ensures !AwaitsMore("")
  {
    assert Split("") == [""];
  }

  /** The pages that follow `last`: while the last line of the latest page holds the
      marker, send one space and take what comes back as the next page. The channel's
      script is finite, so a page that brings nothing new is empty and ends the loop. */
  function MorePages(connected: bool, c: ChannelState, last: Output): (s: Step<seq<Output>>)
    decreases Unread(c), AwaitsMore(last.out)
  {
    if !AwaitsMore(last.out) then Step([], c, 0)
    else
      var next := SendSpec(connected, c, ContinueKey);
      SendProgress(connected, c, ContinueKey);
      EmptyAwaitsNothing();
      var rest := MorePages(connected, next.chan, next.value);
      Step([next.value] + rest.value, rest.chan, next.sleeps + rest.sleeps)
  }

  /** The collector asks for more exactly when the latest page ends with the marker, and
      every page it receives but the last ends with the marker. */
  lemma {:induction false} MorePagesShape(connected: bool, c: ChannelState, last: Output)
    ensures var s := MorePages(connected, c, last);
      (|s.value| == 0 <==> !AwaitsMore(last.out)) && WellPaged([last] + s.value)
    decreases Unread(c), AwaitsMore(last.out)
  {
    if AwaitsMore(last.out) {
      var next := SendSpec(connected, c, ContinueKey);
      SendProgress(connected, c, ContinueKey);
      EmptyAwaitsNothing();
      MorePagesShape(connected, next.chan, next.value);
      var rest := MorePages(connected, next.chan, next.value);
      WellPagedCons(last, [next.value] + rest.value);
    } else {
      assert [last] + MorePages(connected, c, last).value == [last];
    }
  }

  /** After the command itself, the collector sends exactly one space per further page. */
  lemma {:induction false} MorePagesSent(c: ChannelState, last: Output)
    ensures MorePages(true, c, last).chan.sent
         == c.sent + Repeat(ContinueKey + Terminator, |MorePages(true, c, last).value|)
    decreases Unread(c), AwaitsMore(last.out)
  {
    if AwaitsMore(last.out) {
      var next := SendSpec(true, c, ContinueKey);
      SendProgress(true, c, ContinueKey);
      EmptyAwaitsNothing();
      MorePagesSent(next.chan, next.value);
      var rest := MorePages(true, next.chan, next.value);
      SentAfterPage(c.sent, next.chan.sent, rest.chan.sent, ContinueKey + Terminator, |rest.value|);
    }
  }

  lemma SentAfterPage(before: seq<string>, mid: seq<string>, after: seq<string>, x: string, n: nat)
    requires mid == before + [x] && after == mid + Repeat(x, n)
    ensures after == before + Repeat(x, n + 1)
  {
    RepeatCons(x, n);
    assert before + [x] + Repeat(x, n) == before + ([x] + Repeat(x, n));
  }

  /** The successive results the collector receives: the command's, then one per page. */
  function Pages(connected: bool, c: ChannelState, command: string): (pages: seq<Output>)
  {
    var first := SendSpec(connected, c, command);
    [first.value] + MorePages(connected, first.chan, first.value).value
  }

  /** `executeCommandOnSshStreamWithFullOutput`, on the channel. */
  function FullOutputSpec(connected: bool, c: ChannelState, command: string): (s: Step<Output>)
  {
    var first := SendSpec(connected, c, command);
    var more := MorePages(connected, first.chan, first.value);
    Step(Collect([first.value] + more.value), more.chan, first.sleeps + more.sleeps)
  }

  /** The collector receives well-formed pages, so its result ends without the marker,
      carries the final page's (empty) standard error, and it sent the command once and
      then one space per further page. */
  lemma {:induction false} FullOutputResult(connected: bool, c: ChannelState, command: string)
    ensures WellPaged(Pages(connected, c, command))
    ensures var s := FullOutputSpec(connected, c, command);
      var pages := Pages(connected, c, command);
      s.value == Collect(pages)
      && !AwaitsMore(s.value.out) && s.value.err == ""
      && (connected ==> s.chan.sent == c.sent + [command + Terminator]
                                       + Repeat(ContinueKey + Terminator, |pages| - 1))
      && (!connected ==> s.value == Output("", "") && s.chan == c)
  {
    var first := SendSpec(connected, c, command);
    var more := MorePages(connected, first.chan, first.value);
    var pages := [first.value] + more.value;
    assert Pages(connected, c, command) == pages;
    MorePagesShape(connected, first.chan, first.value);
    CollectResult(pages);
    assert Last(pages).err == "" by {
      if |more.value| > 0 {
        LastPageErr(connected, first.chan, first.value);
      }
    }
    if connected {
      MorePagesSent(first.chan, first.value);
    } else {
      EmptyAwaitsNothing();
    }
  }

  /** Every page is a send's result, so its standard error is empty. */
  lemma {:induction false} LastPageErr(connected: bool, c: ChannelState, last: Output)
    requires |MorePages(connected, c, last).value| > 0
    ensures Last(MorePages(connected, c, last).value).err == ""
    decreases Unread(c), AwaitsMore(last.out)
  {
    var next := SendSpec(connected, c, ContinueKey);
    SendProgress(connected, c, ContinueKey);
    EmptyAwaitsNothing();
    var rest := MorePages(connected, next.chan, next.value);
    if |rest.value| > 0 {
      LastPageErr(connected, next.chan, next.value);
    }
  }

  /** `getSshStream`: on a live connection whose `invoke_shell` succeeded, up to three
      readiness polls, each after a sleep; on the first ready one, turn the remote echo
      off with one command and hand out the stream. */
  function OpenSpec(connected: bool, shellOpened: bool, c: ChannelState): (s: Step<bool>)
  {
    if !connected || !shellOpened then Step(false, c, 0)
    else
      var p := FirstTrue(c.recvReady, OpenPolls);
      var c1 := c.(recvReady := Advance(c.recvReady, p.calls));
      if p.hit then
        var s := SendSpec(true, c1, EchoOffCommand);
        Step(true, s.chan, p.calls + s.sleeps)
      else Step(false, c1, p.calls)
  }

  /** The stream is handed out exactly when the connection is live, the shell opened and
      one of the three polls sees it ready; only then is the echo-off command sent, and
      without a live shell nothing happens. */
  lemma OpenResult(connected: bool, shellOpened: bool, c: ChannelState)
    ensures var s := OpenSpec(connected, shellOpened, c);
      (s.value <==> connected && shellOpened && exists k: nat :: k < OpenPolls && Answer(c.recvReady, k, false))
      && (s.value ==> s.chan.sent == c.sent + [EchoOffCommand + Terminator])
      && (!s.value ==> s.chan.sent == c.sent)
      && (!(connected && shellOpened) ==> s == Step(false, c, 0))
  {
    if connected && shellOpened {
      var p := FirstTrue(c.recvReady, OpenPolls);
      FirstTrueFindsFirst(c.recvReady, OpenPolls);
      SendShape(true, c.(recvReady := Advance(c.recvReady, p.calls)), EchoOffCommand);
    }
  }
}

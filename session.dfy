/** What establishing a session and running a one-shot command do, as functions of the
    credentials, the settings and the scripted remote side: the host-reachability
    preflight, the choice of one authentication strategy, the single connect attempt,
    and the two-attempt `exec_command` retry. The class in module ConnectSSH is proved
    to behave exactly as these functions say. */
module Session {
  import opened Text
  import opened Oracle

  datatype Option<T> = None | Some(value: T)

  /** The credentials dictionary: which of its keys are present, and their values. */
  datatype Credentials = Credentials(
    hostname: Option<string>, username: Option<string>, hostport: Option<int>,
    password: Option<string>, passkey: Option<string>)

  /** The constructor's remaining arguments, with `platform.system().lower()`. */
  datatype Settings = Settings(
    system: string, tcptimeout: int, bannertimeout: int, authtimeout: int, numofattempt: int)

  /** What `sshClientConnection` holds: `False`, or an `SSHClient` in some state. */
  datatype ClientState = Fresh | Connected | Closed
  datatype Connection = NotConnected | Client(state: ClientState)

  const DefaultPort: int := 22
  const PingAttempts: nat := 3
  const ExecAttempts: nat := 2
  const DefaultKeyPath: string := "~/.ssh/id_rsa"

  const MissingCredentialsMessage: string := "hostname or username is not found"
  const AuthProblemMessage: string := "Authentication problem"
  const InvalidConnectionMessage: string := "Invalid ssh connection. Can't execute command"
  const ExecFailedMessage: string := "Failed to execute the command on the host"
  const ExecFinishedMessage: string := "Command execution has been finished"

  function PingSuccessMessage(host: string): string { "Ping test success for the host: " + host }
  function PingFailedMessage(host: string): string { "Ping test failed for the host: " + host }
  function TryingMessage(host: string): string { "Trying to connect the host: " + host }
  function NoMethodMessage(host: string): string { "No matching method found to authenticate the host: " + host }
  function ConnectedMessage(host: string): string { "Connected to host: " + host }
  function ErrorMessage(reason: string): string { "Error occured: " + reason }

  /** The platforms on which the default private key is tried. */
  predicate IsUnixFamily(system: string) {
    system == "linux" || system == "sunos"
  }

  /** The one authentication method an attempt uses. */
  datatype Strategy = PasswordMethod(password: string) | KeyFileMethod(path: string) | DefaultKeyMethod | NoMatchingMethod

  /** The authentication method, by fixed priority: a password, else a key file, else the
      default key on Unix-family platforms, else none. */
  function SelectStrategy(credentials: Credentials, system: string): (s: Strategy)
    ensures s.PasswordMethod? <==> credentials.password.Some?
    ensures s.PasswordMethod? ==> s.password == credentials.password.value
    ensures s.KeyFileMethod? <==> credentials.password.None? && credentials.passkey.Some?
    ensures s.KeyFileMethod? ==> s.path == credentials.passkey.value
    ensures s.DefaultKeyMethod? <==> credentials.password.None? && credentials.passkey.None? && IsUnixFamily(system)
    ensures s.NoMatchingMethod? <==> credentials.password.None? && credentials.passkey.None? && !IsUnixFamily(system)
  {
    if credentials.password.Some? then PasswordMethod(credentials.password.value)
    else if credentials.passkey.Some? then KeyFileMethod(credentials.passkey.value)
    else if IsUnixFamily(system) then DefaultKeyMethod
    else NoMatchingMethod
  }

  /** The arguments of the `connect` call a strategy makes. Only the password method
      turns the SSH agent off; every method turns key search off. */
  function RequestFor(host: string, port: int, user: string, s: Strategy, settings: Settings): ConnectRequest
    requires !s.NoMatchingMethod?
  {
    var credential := match s
      case PasswordMethod(password) => WithPassword(password)
      case KeyFileMethod(path) => WithKeyFile(path)
      case DefaultKeyMethod => WithKeyFile(DefaultKeyPath);
    ConnectRequest(host, port, user, credential, settings.tcptimeout, settings.bannertimeout,
                   settings.authtimeout, !s.PasswordMethod?, false)
  }

  /** The message set when an attempt of a strategy starts. */
  function TriggeredMessage(s: Strategy, host: string): string {
    match s
    case PasswordMethod(_) => "Password authentication method triggered to connect host: " + host
    case KeyFileMethod(_) => "Pass key authentication method triggered to connect host: " + host
    case DefaultKeyMethod => "Trying automatic pass key authentication method triggered to connect host: " + host
    case NoMatchingMethod => NoMethodMessage(host)
  }

  /** The port the credentials name, or the SSH default. */
  function PortOf(credentials: Credentials): int {
    if credentials.hostport.Some? then credentials.hostport.value else DefaultPort
  }

  datatype PingResult = PingResult(up: bool, status: string, sleeps: nat, remote: RemoteState)

  /** `pingServer`: up to three pings, stopping at the first reply, with a sleep after
      each failed one. */
  function PingSpec(r: RemoteState, host: string): PingResult {
    var poll := FirstTrue(r.ping, PingAttempts);
    PingResult(poll.hit, if poll.hit then PingSuccessMessage(host) else PingFailedMessage(host), Misses(poll),
               r.(ping := Advance(r.ping, poll.calls), pinged := r.pinged + Repeat(host, poll.calls)))
  }

  /** The ping preflight makes one to three attempts, stops at the first reply, reports
      the host up exactly when one of the three attempts would get a reply, sleeps after
      each failed attempt, and changes nothing but the ping script's position and log. */
  lemma PingRetry(r: RemoteState, host: string)
    ensures var p := PingSpec(r, host);
      var attempts := p.remote.ping.calls - r.ping.calls;
      1 <= attempts <= PingAttempts
      && (p.up <==> exists k: nat :: k < PingAttempts && Answer(r.ping, k, false))
      && (p.up ==> Answer(r.ping, attempts - 1, false))
      && (forall k: nat :: k < attempts - 1 ==> !Answer(r.ping, k, false))
      && (!p.up ==> attempts == PingAttempts)
      && p.sleeps == attempts - (if p.up then 1 else 0)
      && p.remote == r.(ping := p.remote.ping, pinged := r.pinged + Repeat(host, attempts))
      && p.remote.ping.script == r.ping.script
      && p.status == if p.up then PingSuccessMessage(host) else PingFailedMessage(host)
  {
    FirstTrueFindsFirst(r.ping, PingAttempts);
  }

  /** The state the constructor leaves behind. */
  datatype Established = Established(
    connection: Connection, status: string, hostName: string, sleeps: nat, remote: RemoteState)

  /** Credentials that pass validation. */
  predicate Validated(credentials: Credentials) {
    credentials.hostname.Some? && credentials.username.Some?
  }

  /** The constructor: validate the credentials, run the ping preflight, then make the
      one attempt of the chosen strategy. Every path other than an accepted connection
      ends with `sshClientConnection` False. */
  function Establish(credentials: Credentials, settings: Settings, r: RemoteState): Established {
    if !Validated(credentials) then Established(NotConnected, MissingCredentialsMessage, "", 0, r)
    else Preflighted(credentials, settings, PingSpec(r, credentials.hostname.value))
  }

  /** What follows the ping preflight. */
  function Preflighted(credentials: Credentials, settings: Settings, ping: PingResult): Established
    requires Validated(credentials)
  {
    var host := credentials.hostname.value;
    if !ping.up then Established(NotConnected, ping.status, host, ping.sleeps, ping.remote)
    else if settings.numofattempt <= 0 then Established(NotConnected, TryingMessage(host), host, ping.sleeps, ping.remote)
    else Attempted(credentials, settings, ping.sleeps, ping.remote)
  }

  /** The one pass of the attempt loop that is ever made. */
  function Attempted(credentials: Credentials, settings: Settings, sleeps: nat, r: RemoteState): Established
    requires Validated(credentials)
  {
    var host := credentials.hostname.value;
    var strategy := SelectStrategy(credentials, settings.system);
    if strategy.NoMatchingMethod? then Established(NotConnected, NoMethodMessage(host), host, sleeps, r)
    else
      var outcome := Answer(r.connect, 0, ConnectError(Unscripted));
      Established(ConnectionAfter(outcome), StatusAfter(outcome, host), host, sleeps,
                  AfterConnect(r, RequestFor(host, PortOf(credentials), credentials.username.value, strategy, settings)))
  }

  /** The remote side after one `connect` call. */
  function AfterConnect(r: RemoteState, request: ConnectRequest): RemoteState {
    r.(connect := Advance(r.connect, 1), requests := r.requests + [request])
  }

  /** The client kept after a connect attempt: only an accepted one keeps it. */
  function ConnectionAfter(outcome: ConnectOutcome): Connection {
    if outcome == Accepted then Client(Connected) else NotConnected
  }

  /** The status a connect attempt leaves: success, the authentication failure, or the
      error text of any other exception. */
  function StatusAfter(outcome: ConnectOutcome, host: string): string {
    match outcome
    case Accepted => ConnectedMessage(host)
    case AuthRejected => AuthProblemMessage
    case ConnectError(reason) => ErrorMessage(reason)
  }

  /** Missing hostname or username: the constructor stops before pinging or connecting. */
  lemma MissingCredentials(credentials: Credentials, settings: Settings, r: RemoteState)
    requires !Validated(credentials)
    ensures var e := Establish(credentials, settings, r);
      e.connection == NotConnected && e.status == MissingCredentialsMessage
      && e.remote == r && e.sleeps == 0
  {
  }

  /** A host that answers none of the three pings is never connected to. */
  lemma UnreachableHost(credentials: Credentials, settings: Settings, r: RemoteState)
    requires Validated(credentials)
    requires forall k: nat :: k < PingAttempts ==> !Answer(r.ping, k, false)
    ensures var e := Establish(credentials, settings, r);
      e.connection == NotConnected && e.status == PingFailedMessage(credentials.hostname.value)
      && e.remote.ping.calls == r.ping.calls + PingAttempts
      && e.remote.requests == r.requests && e.remote.connect == r.connect
      && e.sleeps == PingAttempts
  {
    PingRetry(r, credentials.hostname.value);
  }

  /** The constructor reaches the connect step: the credentials are valid, the host
      answered a ping, the loop is entered and some strategy applies. */
  predicate ReachesConnect(credentials: Credentials, settings: Settings, r: RemoteState) {
    Validated(credentials)
    && PingSpec(r, credentials.hostname.value).up
    && settings.numofattempt > 0
    && !SelectStrategy(credentials, settings.system).NoMatchingMethod?
  }

  /** At most one connect attempt is made, whatever `numofattempt` says; it is made
      exactly when the connect step is reached, and with the strategy of highest priority. */
  lemma SingleConnectAttempt(credentials: Credentials, settings: Settings, r: RemoteState)
    ensures var e := Establish(credentials, settings, r);
      e.remote.connect.calls - r.connect.calls == |e.remote.requests| - |r.requests|
      && e.remote.requests[..|r.requests|] == r.requests
      && (|e.remote.requests| == |r.requests| + 1 <==> ReachesConnect(credentials, settings, r))
      && (!ReachesConnect(credentials, settings, r) ==> e.remote.requests == r.requests)
      && (ReachesConnect(credentials, settings, r) ==>
            Last(e.remote.requests) == RequestFor(credentials.hostname.value, PortOf(credentials),
                                                  credentials.username.value,
                                                  SelectStrategy(credentials, settings.system), settings))
  {
    var e := Establish(credentials, settings, r);
    if ReachesConnect(credentials, settings, r) {
      assert e.remote.requests == PingSpec(r, credentials.hostname.value).remote.requests + [Last(e.remote.requests)];
    }
  }

  /** A reachable host on a platform outside the Unix family, with neither a password
      nor a key file, ends disconnected with the no-method status and no connect call. */
  lemma NoMethodDisconnects(credentials: Credentials, settings: Settings, r: RemoteState)
    requires Validated(credentials) && credentials.password.None? && credentials.passkey.None?
    requires !IsUnixFamily(settings.system) && settings.numofattempt > 0
    requires PingSpec(r, credentials.hostname.value).up
    ensures var e := Establish(credentials, settings, r);
      e.connection == NotConnected && e.status == NoMethodMessage(credentials.hostname.value)
      && e.remote.requests == r.requests && e.remote.connect == r.connect
  {
  }

  /** Any attempt budget of one or more behaves the same: the loop never runs twice. */
  lemma RetryBudgetUnused(credentials: Credentials, settings: Settings, r: RemoteState, n: int, m: int)
    requires n >= 1 && m >= 1
    ensures Establish(credentials, settings.(numofattempt := n), r)
         == Establish(credentials, settings.(numofattempt := m), r)
  {
  }

  /** The session ends connected exactly when the single attempt is accepted, and the
      status then reads "Connected to host: ..." and on no other path. */
  lemma {:induction false} ConnectedIffAccepted(credentials: Credentials, settings: Settings, r: RemoteState)
    ensures var e := Establish(credentials, settings, r);
      (e.connection != NotConnected <==>
         (ReachesConnect(credentials, settings, r)
          && Answer(PingSpec(r, credentials.hostname.value).remote.connect, 0, ConnectError(Unscripted)) == Accepted))
      && (e.connection != NotConnected ==> e.connection == Client(Connected))
      && (e.connection != NotConnected <==> e.status == ConnectedMessage(e.hostName))
  {
    var e := Establish(credentials, settings, r);
    if e.connection == NotConnected && e.status == ConnectedMessage(e.hostName) {
      // Every failure message differs from the success message in its first character.
      assert e.status[0] == 'C';
    }
  }

  datatype ExecResult = ExecResult(output: Output, status: string, sleeps: nat, remote: RemoteState)

  /** `executeCommand`: up to two `exec_command` attempts with a sleep after each
      failure; on success, wait for the exit status and join the `readlines()` output. */
  function ExecSpec(connected: bool, r: RemoteState, command: string): (x: ExecResult)
  {
    if !connected then ExecResult(Output("", ""), InvalidConnectionMessage, 0, r)
    else
      var p := FirstHit(r.exec, ExecError(Unscripted), ExecAttempts, IsOpened);
      var r1 := r.(exec := Advance(r.exec, p.calls), commands := r.commands + Repeat(command, p.calls));
      if !p.hit then ExecResult(Output("", ""), ExecFailedMessage, Misses(p), r1)
      else
        var o := Answer(r.exec, p.calls - 1, ExecError(Unscripted));
        ExecResult(Output(Concat(o.stdoutLines), Concat(o.stderrLines)), ExecFinishedMessage,
                   Misses(p) + o.pendingPolls,
                   r1.(pendingExit := 0, exitPolls := r.exitPolls + o.pendingPolls + 1))
  }

  /** A one-shot command makes at most two `exec_command` calls, all with the command,
      and touches nothing else of the remote side. Without a connection it does nothing.
      When neither attempt opens a channel, it makes both, sleeps after each and returns
      empty output. Otherwise it stops at the first opened channel, waits one sleep per
      negative exit-status poll, and returns the joined lines of both streams. */
  lemma ExecRetry(connected: bool, r: RemoteState, command: string)
    ensures var x := ExecSpec(connected, r, command);
      var attempts := x.remote.exec.calls - r.exec.calls;
      0 <= attempts <= ExecAttempts
      && x.remote.commands == r.commands + Repeat(command, attempts)
      && x.remote.exec.script == r.exec.script
      && x.remote.ping == r.ping && x.remote.pinged == r.pinged
      && x.remote.connect == r.connect && x.remote.requests == r.requests
      && (!connected ==> attempts == 0 && x.output == Output("", "") && x.remote == r && x.status == InvalidConnectionMessage)
      && (connected && (forall k: nat :: k < ExecAttempts ==> !Answer(r.exec, k, ExecError(Unscripted)).ExecOpened?) ==>
            attempts == ExecAttempts && x.output == Output("", "") && x.remote.exitPolls == r.exitPolls
            && x.sleeps == ExecAttempts && x.status == ExecFailedMessage)
      && (connected && (exists k: nat :: k < ExecAttempts && Answer(r.exec, k, ExecError(Unscripted)).ExecOpened?) ==>
            1 <= attempts && Answer(r.exec, attempts - 1, ExecError(Unscripted)).ExecOpened?
            && (forall k: nat :: k < attempts - 1 ==> !Answer(r.exec, k, ExecError(Unscripted)).ExecOpened?)
            && var o := Answer(r.exec, attempts - 1, ExecError(Unscripted));
            x.output == Output(Concat(o.stdoutLines), Concat(o.stderrLines))
            && x.remote.exitPolls == r.exitPolls + o.pendingPolls + 1
            && x.sleeps == attempts - 1 + o.pendingPolls
            && x.status == ExecFinishedMessage)
  {
    FirstHitFindsFirst(r.exec, ExecError(Unscripted), ExecAttempts, IsOpened);
  }

  /** The attempt loop whose first opened channel comes on attempt `n + 1`. */
  lemma ExecSpecOpened(r: RemoteState, command: string, n: nat)
    requires n < ExecAttempts && Answer(r.exec, n, ExecError(Unscripted)).ExecOpened?
    requires forall k: nat :: k < n ==> !Answer(r.exec, k, ExecError(Unscripted)).ExecOpened?
    ensures var o := Answer(r.exec, n, ExecError(Unscripted));
      ExecSpec(true, r, command)
        == ExecResult(Output(Concat(o.stdoutLines), Concat(o.stderrLines)), ExecFinishedMessage, n + o.pendingPolls,
                      r.(exec := Advance(r.exec, n + 1), commands := r.commands + Repeat(command, n + 1),
                         pendingExit := 0, exitPolls := r.exitPolls + o.pendingPolls + 1))
  {
    FirstHitUnique(r.exec, ExecError(Unscripted), ExecAttempts, IsOpened, Poll(n + 1, true));
  }

  /** The attempt loop that never opens a channel. */
  lemma ExecSpecFailed(r: RemoteState, command: string)
    requires forall k: nat :: k < ExecAttempts ==> !Answer(r.exec, k, ExecError(Unscripted)).ExecOpened?
    ensures ExecSpec(true, r, command)
         == ExecResult(Output("", ""), ExecFailedMessage, ExecAttempts,
                       r.(exec := Advance(r.exec, ExecAttempts), commands := r.commands + Repeat(command, ExecAttempts)))
  {
    FirstHitUnique(r.exec, ExecError(Unscripted), ExecAttempts, IsOpened, Poll(ExecAttempts, false));
  }
}

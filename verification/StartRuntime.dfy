/** startRuntime of extension/src/service-worker.js.  At every await the rest of the extension may act: a
    competing start may advance the control epoch, the native connection may end or be replaced, and the
    shared credentials and status may change; and the awaited call may fail.  What one run learns of the native
    host, does to the PAC, the gate and the native connection, and publishes, is logged, and each entry must be
    permitted by those before it. */
module StartRuntime {
  import opened Basics

  datatype Failure =
    | SupersededControl
    | ComponentUpdateRequired
    | ComponentIncompatible
    | LocalCaRequired
    | GateTransitionFailed
    | OtherFailure

  datatype Credentials = Credentials(port: int, username: string, password: string)

  /** Header evidence: usable for the gate strictly before it closes. */
  datatype Header = Header(corroborated: bool, closesAt: int)

  datatype State = Starting | Active | Degraded | Blocked

  datatype Reason =
    NoReason | HeaderReadinessUnavailable | NavigationGateTransitionFailed | BlockingPacInstallFailed |
    Because(failure: Failure)

  datatype Status = Status(state: State, reason: Reason, proxyActive: bool, header: Option<Header>)

  /** What inspectNativeComponent makes of the answer to hello. */
  datatype Component = Ready | VersionMismatch | Incompatible

  datatype StartResult = StartResult(credentials: Credentials, caInstalled: bool, header: Option<Header>)

  datatype Pac = Blocker | Live

  datatype Action =
    | Began(prior: Status, priorCredentials: Option<Credentials>, replaced: Option<int>)
    | ClosedGate
    | InstalledPac(pac: Pac, confirmed: bool, credentials: Option<Credentials>)
    | Disconnected(target: int, epochWasCurrent: bool)
    | Connected(target: int)
    | Inspected(component: Component)
    | Started(result: StartResult)
    | CheckedHeaders(header: Option<Header>, at: int, ready: bool)
    | OpenedGate(restoring: bool, at: int, epochWasCurrent: bool, confirmed: bool)
    | Published(status: Status, given: Option<Credentials>, connection: Option<int>, at: int, epochWasCurrent: bool)
    | PublishedPrior(status: Status, epochWasCurrent: bool)

  predicate ReadyForGate(header: Option<Header>, now: int) {
    header.Some? && header.value.corroborated && header.value.closesAt > now
  }

  // ---- the discipline of one run ----

  /** The PAC of the last attempt, and whether it was confirmed. */
  datatype Selected = Selected(pac: Pac, confirmed: bool)

  /** What the run did last about the PAC, and what it learned. */
  datatype Summary = Summary(pac: Option<Selected>, component: Option<Component>, started: Option<StartResult>)

  ghost function After(s: Summary, a: Action): Summary {
    match a
    case InstalledPac(pac, confirmed, _) => s.(pac := Some(Selected(pac, confirmed)))
    case Inspected(component) => s.(component := Some(component))
    case Started(result) => s.(started := Some(result))
    case _ => s
  }

  ghost function Sum(log: seq<Action>): Summary {
    if log == [] then Summary(None, None, None) else After(Sum(log[..|log| - 1]), log[|log| - 1])
  }

  ghost predicate LastPacIs(log: seq<Action>, pac: Pac) {
    Sum(log).pac == Some(Selected(pac, true))
  }

  /** The native component is the extension's, and it started with the local CA installed. */
  ghost predicate HostIsReady(log: seq<Action>) {
    Sum(log).component == Some(Ready) && Sum(log).started.Some? && Sum(log).started.value.caInstalled
  }

  /** The failure that what was learned of the native host stands for. */
  ghost function Cause(log: seq<Action>): Option<Failure> {
    if Sum(log).component == Some(VersionMismatch) then Some(ComponentUpdateRequired)
    else if Sum(log).component == Some(Incompatible) then Some(ComponentIncompatible)
    else if Sum(log).started.Some? && !Sum(log).started.value.caInstalled then Some(LocalCaRequired)
    else None
  }

  ghost predicate Explains(log: seq<Action>, f: Failure) {
    Cause(log) == if f.ComponentUpdateRequired? || f.ComponentIncompatible? || f.LocalCaRequired? then Some(f) else None
  }

  ghost predicate LastEntryIs(log: seq<Action>, a: Action) {
    log != [] && log[|log| - 1] == a
  }

  /** The prior runtime was active and may be so again. */
  ghost predicate MayReopen(began: Action, at: int)
    requires began.Began?
  {
    began.prior.proxyActive && began.priorCredentials.Some? && began.prior.header.Some? &&
    began.prior.header.value.corroborated && began.prior.header.value.closesAt > at
  }

  /** A live PAC only for a ready host, with its credentials.  Nothing is disconnected but behind a confirmed blocker,
      and only the replaced connection or the run's own.  The gate opens for the new runtime only behind its confirmed
      live PAC and straight after header evidence was checked ready, and for the old one only while nothing was
      touched. */
  ghost predicate Permitted(log: seq<Action>, a: Action) {
    if log == [] then
      a.Began?
    else
      log[0].Began? &&
      match a
      case Began(_, _, _) => false
      case ClosedGate => true
      case Connected(_) => true
      case Inspected(_) => true
      case Started(_) => Sum(log).component == Some(Ready)
      case CheckedHeaders(header, at, ready) =>
        ready <==> header.Some? && header.value.corroborated && header.value.closesAt > at
      case InstalledPac(pac, _, credentials) =>
        ClosedGate in log &&
        (pac.Live? ==> HostIsReady(log) && credentials == Some(Sum(log).started.value.credentials))
      case Disconnected(connection, epochWasCurrent) =>
        epochWasCurrent && LastPacIs(log, Blocker) && (log[0].replaced == Some(connection) ||
            Connected(connection) in log)
      case OpenedGate(restoring, at, epochWasCurrent, _) =>
        epochWasCurrent &&
        if restoring then ClosedGate !in log && Sum(log).pac.None? && MayReopen(log[0], at)
        else LastPacIs(log, Live) && HostIsReady(log) && JustReady(log, at)
      case Published(status, credentials, connection, at, epochWasCurrent) =>
        MayPublish(log, status, credentials, at, epochWasCurrent) &&
        (status.reason.Because? ==> Released(log, connection)) &&
        (status.state.Active? || status.reason.HeaderReadinessUnavailable? ==> OwnIs(log, connection))
      case PublishedPrior(status, epochWasCurrent) =>
        epochWasCurrent && status == log[0].prior && log[|log| - 1].OpenedGate? && log[|log| - 1].restoring &&
        log[|log| - 1].confirmed
  }

  /** Header evidence was found ready at this very time, and nothing was done since. */
  ghost predicate JustReady(log: seq<Action>, at: int)
    requires log != []
  {
    var last := log[|log| - 1];
    last.CheckedHeaders? && last.ready && last.at == at
  }

  /** The gate was just opened for the new runtime, after this header was found ready. */
  ghost predicate Opened(log: seq<Action>, header: Option<Header>) {
    |log| >= 2 && log[|log| - 2].CheckedHeaders? && log[|log| - 2].ready && log[|log| - 2].header == header &&
    log[|log| - 1].OpenedGate? && !log[|log| - 1].restoring && log[|log| - 1].confirmed
  }

  /** Active: the gate was just opened for the new runtime, with the header that was checked for it.  Blocked: exactly
      for a host that is not ready, behind the blocker.  In two branches the epoch is not looked at again. */
  ghost predicate MayPublish(
    log: seq<Action>, s: Status, credentials: Option<Credentials>, at: int, epochWasCurrent: bool)
    requires log != [] && log[0].Began?
  {
    var began := log[0];
    match s.state
    case Starting =>
      epochWasCurrent && s.reason == NoReason &&
      (if |log| == 1
       then s.header == began.prior.header && s.proxyActive == (began.prior.proxyActive && began.priorCredentials.Some?)
       else LastPacIs(log, Blocker) && !s.proxyActive && s.header.None? && credentials.None?)
    case Active =>
      epochWasCurrent && s.reason == NoReason && s.proxyActive && LastPacIs(log, Live) && HostIsReady(log) &&
      Opened(log, s.header)
    case Blocked =>
      epochWasCurrent && s.reason.Because? && Cause(log) == Some(s.reason.failure) && LastPacIs(log, Blocker) &&
      !s.proxyActive && credentials.None?
    case Degraded =>
      match s.reason
      case NoReason => false
      case HeaderReadinessUnavailable => epochWasCurrent && s.proxyActive && LastPacIs(log, Live) && HostIsReady(log)
      case NavigationGateTransitionFailed =>
        ClosedGate !in log && s.header == began.prior.header &&
        s.proxyActive == (began.prior.proxyActive && began.priorCredentials.Some?) &&
        (if log[|log| - 1].OpenedGate? then !log[|log| - 1].confirmed
         else epochWasCurrent && credentials == began.priorCredentials && !MayReopen(began, at))
      case BlockingPacInstallFailed =>
        Sum(log).pac == Some(Selected(Blocker, false)) && s.proxyActive == credentials.Some? &&
        (credentials == began.priorCredentials || exists c :: Disconnected(c, true) in log)
      case Because(_) =>
        epochWasCurrent && Cause(log).None? && LastPacIs(log, Blocker) && !s.proxyActive && credentials.None?
  }

  /** The connection is the run's own. */
  ghost predicate OwnIs(log: seq<Action>, connection: Option<int>) {
    connection.Some? && Connected(connection.value) in log
  }

  /** The connection is neither the run's own nor the one that it was to replace and did not end before. */
  ghost predicate Released(log: seq<Action>, connection: Option<int>)
    requires log != [] && log[0].Began?
  {
    connection.Some? ==>
      Connected(connection.value) !in log &&
      (log[0].replaced == connection ==>
        Disconnected(connection.value, true) in log || exists other :: Connected(other) in log)
  }

  ghost predicate Disciplined(log: seq<Action>) {
    log == [] || (Disciplined(log[..|log| - 1]) && Permitted(log[..|log| - 1], log[|log| - 1]))
  }

  /** Every entry of a disciplined log was permitted when it was made. */
  lemma {:induction false} EveryEntryPermitted(log: seq<Action>, i: nat)
    requires Disciplined(log) && i < |log|
    ensures Permitted(log[..i], log[i])
  {
    if i < |log| - 1 {
      EveryEntryPermitted(log[..|log| - 1], i);
      assert log[..|log| - 1][..i] == log[..i];
    }
  }

  lemma InPrefix(log: seq<Action>, a: Action)
    requires log != [] && a in log[..|log| - 1]
    ensures a in log
  {
  }

  /** The last attempt is an entry with no later attempt, and what was learned are entries. */
  lemma {:induction false} SumIsOfEntries(log: seq<Action>)
    ensures Sum(log).pac.Some? ==>
              exists j :: 0 <= j < |log| && log[j].InstalledPac? &&
                Selected(log[j].pac, log[j].confirmed) == Sum(log).pac.value &&
                forall k :: j < k < |log| ==> !log[k].InstalledPac?
    ensures Sum(log).component.Some? ==> Inspected(Sum(log).component.value) in log
    ensures Sum(log).started.Some? ==> Started(Sum(log).started.value) in log
  {
    if log != [] {
      var n := |log| - 1;
      SumIsOfEntries(log[..n]);
      assert forall a :: a in log[..n] ==> a in log;
      if !log[n].InstalledPac? && Sum(log).pac.Some? {
        var j :| 0 <= j < n && log[..n][j].InstalledPac? &&
          Selected(log[..n][j].pac, log[..n][j].confirmed) == Sum(log[..n]).pac.value &&
          forall k :: j < k < n ==> !log[..n][k].InstalledPac?;
        assert forall k :: j < k < n ==> log[k] == log[..n][k];
        assert log[j] == log[..n][j];
      }
    }
  }

  lemma LastAttempt(log: seq<Action>, i: nat, pac: Pac) returns (j: nat)
    requires i < |log| && LastPacIs(log[..i], pac)
    ensures j < i && log[j].InstalledPac? && log[j].pac == pac && log[j].confirmed
    ensures forall k :: j < k < i ==> !log[k].InstalledPac?
  {
    SumIsOfEntries(log[..i]);
    j :| 0 <= j < i && log[..i][j].InstalledPac? &&
      Selected(log[..i][j].pac, log[..i][j].confirmed) == Sum(log[..i]).pac.value &&
      forall k :: j < k < i ==> !log[..i][k].InstalledPac?;
    assert forall k :: j < k < i ==> log[k] == log[..i][k];
    assert log[j] == log[..i][j];
  }

  /** A run disconnects only in its own epoch, and with a confirmed blocker as its last attempt. */
  lemma DisconnectsBehindBlocker(log: seq<Action>, i: nat)
    requires Disciplined(log) && i < |log| && log[i].Disconnected?
    ensures log[i].epochWasCurrent
    ensures exists j :: 0 <= j < i && log[j].InstalledPac? && log[j].pac == Blocker && log[j].confirmed &&
              forall k :: j < k < i ==> !log[k].InstalledPac?
  {
    EveryEntryPermitted(log, i);
    var j := LastAttempt(log, i, Blocker);
  }

  /** A live PAC is attempted only for a component that was found ready and a start that reported the local CA
      installed, with the credentials of that start. */
  lemma LivePacNeedsReadyHost(log: seq<Action>, i: nat) returns (result: StartResult)
    requires Disciplined(log) && i < |log| && log[i].InstalledPac? && log[i].pac == Live
    ensures ClosedGate in log[..i] && Inspected(Ready) in log[..i] && Started(result) in log[..i]
    ensures result.caInstalled && log[i].credentials == Some(result.credentials)
  {
    EveryEntryPermitted(log, i);
    SumIsOfEntries(log[..i]);
    result := Sum(log[..i]).started.value;
  }

  /** The normal path opens the gate only for such a host, with its live PAC confirmed by the last attempt, and
      straight after header evidence was checked to be corroborated and not to close before that time. */
  lemma OpensBehindLivePac(log: seq<Action>, i: nat) returns (result: StartResult)
    requires Disciplined(log) && i < |log| && log[i].OpenedGate? && !log[i].restoring
    ensures log[i].epochWasCurrent && i > 0
    ensures var checked := log[i - 1];
            checked.CheckedHeaders? && checked.ready && checked.at == log[i].at && checked.header.Some? &&
            checked.header.value.corroborated && checked.header.value.closesAt > log[i].at
    ensures Inspected(Ready) in log[..i] && Started(result) in log[..i] && result.caInstalled
    ensures exists j :: 0 <= j < i && log[j].InstalledPac? && log[j].pac == Live && log[j].confirmed &&
              forall k :: j < k < i ==> !log[k].InstalledPac?
  {
    EveryEntryPermitted(log, i);
    EveryEntryPermitted(log, i - 1);
    SumIsOfEntries(log[..i]);
    result := Sum(log[..i]).started.value;
    var j := LastAttempt(log, i, Live);
  }

  /** Active is published only straight after such an opening, and Blocked only for a component that does not fit or
      a start without the local CA, which is then the reason given, behind a confirmed blocker.  A failure is published
      only when the run's own connection, or without one that which it was to replace, is current no more.  Out of its
      epoch a run publishes only after the gate could not be reopened or the blocker not be confirmed. */
  lemma PublishesWhatHappened(log: seq<Action>, i: nat)
    requires Disciplined(log) && i < |log| && log[i].Published?
    ensures log[i].status.state == Active ==>
              log[i].epochWasCurrent && i >= 2 && log[i - 1].OpenedGate? && !log[i - 1].restoring &&
              log[i - 1].confirmed &&
              log[i - 2].CheckedHeaders? && log[i - 2].header == log[i].status.header &&
              log[i].connection.Some? && Connected(log[i].connection.value) in log[..i]
    ensures log[i].status.state == Blocked ==>
              log[i].epochWasCurrent && log[i].given.None? && !log[i].status.proxyActive &&
              LastPacIs(log[..i], Blocker) &&
              match log[i].status.reason
              case Because(ComponentUpdateRequired) => Inspected(VersionMismatch) in log[..i]
              case Because(ComponentIncompatible) => Inspected(Incompatible) in log[..i]
              case Because(LocalCaRequired) => exists r :: Started(r) in log[..i] && !r.caInstalled
              case _ => false
    ensures log[i].status.reason.Because? && log[i].connection.Some? ==>
              Connected(log[i].connection.value) !in log[..i] &&
              (log[0].replaced == log[i].connection ==>
                Disconnected(log[i].connection.value, true) in log[..i] || exists other :: Connected(other) in log[..i])
    ensures !log[i].epochWasCurrent ==>
              i > 0 && log[i].status.state == Degraded &&
              ((log[i].status.reason == NavigationGateTransitionFailed && log[i - 1].OpenedGate? &&
                !log[i - 1].confirmed) ||
               (log[i].status.reason == BlockingPacInstallFailed &&
                exists j :: 0 <= j < i && log[j].InstalledPac? && log[j].pac == Blocker && !log[j].confirmed))
  {
    EveryEntryPermitted(log, i);
    SumIsOfEntries(log[..i]);
  }

  /** A log, or the log with an attempt at the blocker. */
  ghost predicate BlockedFrom(before: seq<Action>, after: seq<Action>) {
    after == before || exists confirmed, given :: after == before + [InstalledPac(Blocker, confirmed, given)]
  }

  /** A log, or the log with the end of a connection. */
  ghost predicate EndedFrom(before: seq<Action>, after: seq<Action>) {
    after == before || exists connection :: after == before + [Disconnected(connection, true)]
  }

  /** A log, or the log with what was published last. */
  ghost predicate ToldFrom(before: seq<Action>, after: seq<Action>) {
    after == before || exists s, given, c, at, current :: after == before + [Published(s, given, c, at, current)]
  }

  /** Only an attempt to reopen the old gate, and what was published then. */
  ghost predicate RestoredFrom(before: seq<Action>, after: seq<Action>) {
    before <= after && |after| <= |before| + 2 &&
    forall i :: |before| <= i < |after| ==>
      (after[i].OpenedGate? && after[i].restoring) || after[i].Published? || after[i].PublishedPrior?
  }

  /** The local flags of one run. */
  class Run {
    const epoch: int
    const replacedConnection: Option<int>
    const priorStatus: Status
    const priorCredentials: Option<Credentials>
    var activationConnection: Option<int>
    var blockerConfirmed: bool
    var livePacConfirmed: bool
    var navigationGateClosed: bool
    var replacedConnectionDisconnected: bool
    ghost var recovering: bool
    ghost var log: seq<Action>

    constructor (epoch: int, replacedConnection: Option<int>, priorStatus: Status,
        priorCredentials: Option<Credentials>)
      ensures Valid() && log == [Began(priorStatus, priorCredentials, replacedConnection)] && this.epoch == epoch
      ensures !navigationGateClosed && !livePacConfirmed && !blockerConfirmed && !replacedConnectionDisconnected
      ensures !recovering && activationConnection.None? && this.replacedConnection == replacedConnection
      ensures this.priorStatus == priorStatus && this.priorCredentials == priorCredentials
    {
      this.epoch, this.replacedConnection := epoch, replacedConnection;
      this.priorStatus, this.priorCredentials := priorStatus, priorCredentials;
      activationConnection := None;
      blockerConfirmed, livePacConfirmed, navigationGateClosed := false, false, false;
      replacedConnectionDisconnected, recovering := false, false;
      log := [Began(priorStatus, priorCredentials, replacedConnection)];
      new;
      assert log[..0] == [];
    }

    /** The log is disciplined and the flags say what is in it. */
    ghost predicate Valid()
      reads this
    {
      Disciplined(log) && log != [] && log[0] == Began(priorStatus, priorCredentials, replacedConnection) &&
      (blockerConfirmed ==> LastPacIs(log, Blocker)) && (livePacConfirmed && !recovering ==> LastPacIs(log, Live)) &&
      (livePacConfirmed ==> HostIsReady(log)) &&
      (navigationGateClosed <==> ClosedGate in log) && (!navigationGateClosed ==> Sum(log).pac.None?) &&
      (forall c :: Connected(c) in log <==> activationConnection == Some(c)) &&
      (replacedConnectionDisconnected ==>
        replacedConnection.Some? && Disconnected(replacedConnection.value, true) in log)
    }

    /** Entries that leave the flags true. */
    ghost method Note(a: Action)
      requires Valid() && Permitted(log, a)
      requires a.InstalledPac? ==> !blockerConfirmed && (!livePacConfirmed || recovering) && navigationGateClosed
      requires !a.ClosedGate? && !a.Connected? && (a.Inspected? || a.Started? ==> !livePacConfirmed)
      modifies this`log
      ensures Valid() && log == old(log) + [a] && Sum(log) == After(Sum(old(log)), a)
    {
      hide Permitted;
      var before := log;
      log := log + [a];
      assert log[..|log| - 1] == before;
    }

    method CloseGate()
      requires Valid() && !navigationGateClosed && !blockerConfirmed && !livePacConfirmed
      modifies this`log, this`navigationGateClosed
      ensures Valid() && navigationGateClosed && log == old(log) + [ClosedGate] && Sum(log) == Sum(old(log))
    {
      ghost var before := log;
      log := log + [ClosedGate];
      assert log[..|log| - 1] == before;
      navigationGateClosed := true;
    }

    method ConfirmBlocker()
      requires Valid() && LastPacIs(log, Blocker)
      modifies this`blockerConfirmed
      ensures Valid() && blockerConfirmed
    {
      blockerConfirmed := true;
    }

    method DoubtBlocker()
      requires Valid()
      modifies this`blockerConfirmed
      ensures Valid() && !blockerConfirmed
    {
      blockerConfirmed := false;
    }

    method ConfirmLivePac()
      requires Valid() && LastPacIs(log, Live) && HostIsReady(log)
      modifies this`livePacConfirmed
      ensures Valid() && livePacConfirmed
    {
      livePacConfirmed := true;
    }

    method Connect(connection: Option<int>)
      requires Valid() && activationConnection.None?
      modifies this`log, this`activationConnection
      ensures Valid() && activationConnection == connection && Sum(log) == Sum(old(log)) && old(log) <= log
    {
      ghost var before := log;
      if connection.Some? {
        log := log + [Connected(connection.value)];
        assert log[..|log| - 1] == before;
      }
      activationConnection := connection;
    }

    method ReplacementEnded(disconnected: bool)
      requires Valid() && replacedConnection.Some?
      requires disconnected ==> LastEntryIs(log, Disconnected(replacedConnection.value, true))
      modifies this`replacedConnectionDisconnected
      ensures Valid() && replacedConnectionDisconnected == disconnected
    {
      replacedConnectionDisconnected := disconnected;
    }

    ghost method BeginRecovery()
      requires Valid()
      modifies this`recovering
      ensures Valid() && recovering
    {
      recovering := true;
    }
  }

  class ServiceWorker {
    var controlEpoch: int
    var connection: Option<int>
    var credentials: Option<Credentials>
    var status: Status
    var now: int

    constructor ()
    {
      controlEpoch, connection, credentials, now := 0, None, None, 0;
      status := Status(Starting, NoReason, false, None);
    }

    // ---- what happens at an await ----

    method Await()
      modifies this
      ensures controlEpoch >= old(controlEpoch) && now >= old(now)
    {
      var epoch: int, later: int := *, *;
      if epoch >= controlEpoch { controlEpoch := epoch; }
      if later >= now { now := later; }
      connection, credentials, status := *, *, *;
    }

    /** An awaited call that may fail, perhaps because its generation was superseded. */
    method Call() returns (failure: Option<Failure>)
      modifies this
      ensures controlEpoch >= old(controlEpoch) && now >= old(now)
      ensures failure.Some? ==> failure.value.SupersededControl? || failure.value.OtherFailure?
    {
      Await();
      if * { return Some(SupersededControl); }
      if * { return Some(OtherFailure); }
      return None;
    }

    function RequireGeneration(run: Run): Option<Failure>
      reads this`controlEpoch
    {
      if run.epoch != controlEpoch then Some(SupersededControl) else None
    }

    predicate RuntimeControlIsCurrent(run: Run)
      reads this`controlEpoch, this`connection, run`activationConnection
    {
      run.epoch == controlEpoch && run.activationConnection.Some? && connection == run.activationConnection
    }

    function RequireRuntime(run: Run): Option<Failure>
      reads this`controlEpoch, this`connection, run`activationConnection
    {
      if RuntimeControlIsCurrent(run) then None else Some(SupersededControl)
    }

    /** setStatus, with what is published remembered. */
    method Publish(run: Run, s: Status)
      requires run.Valid() && MayPublish(run.log, s, credentials, now, run.epoch == controlEpoch)
      requires s.reason.Because? ==> Released(run.log, connection)
      requires s.state.Active? || s.reason.HeaderReadinessUnavailable? ==> OwnIs(run.log, connection)
      modifies this`status, run`log
      ensures run.Valid() && status == s && Sum(run.log) == Sum(old(run.log))
      ensures run.log == old(run.log) + [Published(s, credentials, connection, now, run.epoch == controlEpoch)]
    {
      hide MayPublish;
      status := s;
      run.Note(Published(s, credentials, connection, now, run.epoch == controlEpoch));
    }

    method PublishBlocked(run: Run)
      requires run.Valid() && run.blockerConfirmed && run.epoch == controlEpoch && credentials.None?
      modifies this`status, run`log
      ensures run.Valid() && Sum(run.log) == Sum(old(run.log)) && old(run.log) <= run.log
    {
      assert |run.log| > 1;
      Publish(run, Status(Starting, NoReason, false, None));
    }

    method PublishWaiting(run: Run, header: Option<Header>)
      requires run.Valid() && LastPacIs(run.log, Live) && HostIsReady(run.log) && RuntimeControlIsCurrent(run)
      modifies this`status, run`log
      ensures run.Valid() && Sum(run.log) == Sum(old(run.log))
      ensures run.log == old(run.log) +
                [Published(Status(Degraded, HeaderReadinessUnavailable, true, header), credentials, connection, now,
                    true)]
    {
      Publish(run, Status(Degraded, HeaderReadinessUnavailable, true, header));
    }

    method PublishActive(run: Run, header: Option<Header>)
      requires run.Valid() && LastPacIs(run.log, Live) && HostIsReady(run.log) && RuntimeControlIsCurrent(run)
      requires Opened(run.log, header)
      modifies this`status, run`log
      ensures run.Valid() && Sum(run.log) == Sum(old(run.log))
      ensures run.log == old(run.log) +
                [Published(Status(Active, NoReason, true, header), credentials, connection, now, true)]
    {
      Publish(run, Status(Active, NoReason, true, header));
    }

    method PublishFailure(run: Run, error: Failure)
      requires run.Valid() && run.blockerConfirmed && run.epoch == controlEpoch && credentials.None?
      requires Explains(run.log, error) && Released(run.log, connection)
      modifies this`status, run`log
      ensures run.Valid() && Sum(run.log) == Sum(old(run.log)) && credentials == old(credentials)
      ensures run.log == old(run.log) + [Published(status, None, connection, now, true)] &&
              status.reason == Because(error)
      ensures status.state == if Cause(run.log).Some? then Blocked else Degraded
    {
      if error.ComponentUpdateRequired? || error.ComponentIncompatible? {
        Publish(run, Status(Blocked, Because(error), false, None));
      } else if error.LocalCaRequired? {
        Publish(run, Status(Blocked, Because(error), false, status.header));
      } else {
        Publish(run, Status(Degraded, Because(error), false, status.header));
      }
    }

    method InstallPac(run: Run, pac: Pac) returns (failure: Option<Failure>)
      requires run.Valid() && run.navigationGateClosed && !run.blockerConfirmed &&
               (!run.livePacConfirmed || run.recovering)
      requires pac.Live? ==> HostIsReady(run.log) && credentials == Some(Sum(run.log).started.value.credentials)
      modifies this, run`log
      ensures run.Valid() && run.log == old(run.log) + [InstalledPac(pac, failure.None?, old(credentials))]
      ensures Sum(run.log) == Sum(old(run.log)).(pac := Some(Selected(pac, failure.None?)))
      ensures failure.Some? ==> failure.value.SupersededControl? || failure.value.OtherFailure?
    {
      ghost var given := credentials;
      failure := Call();
      run.Note(InstalledPac(pac, failure.None?, given));
    }

    method CheckReady(run: Run, header: Option<Header>) returns (ready: bool)
      requires run.Valid()
      modifies run`log
      ensures run.Valid() && run.log == old(run.log) + [CheckedHeaders(header, now, ready)]
      ensures Sum(run.log) == Sum(old(run.log)) && ready == ReadyForGate(header, now)
    {
      ready := ReadyForGate(header, now);
      run.Note(CheckedHeaders(header, now, ready));
    }

    method DisconnectIfCurrent(run: Run, target: int) returns (disconnected: bool)
      requires run.Valid() && run.epoch == controlEpoch && run.blockerConfirmed
      requires run.replacedConnection == Some(target) || run.activationConnection == Some(target)
      modifies this`connection, run`log
      ensures run.Valid() && Sum(run.log) == Sum(old(run.log)) && disconnected == (old(connection) == Some(target))
      ensures run.log == if disconnected then old(run.log) + [Disconnected(target, true)] else old(run.log)
      ensures connection == if disconnected then None else old(connection)
    {
      if connection != Some(target) { return false; }
      run.Note(Disconnected(target, run.epoch == controlEpoch));
      connection := None;
      return true;
    }

    method OpenGate(run: Run) returns (failure: Option<Failure>)
      requires run.Valid() && run.epoch == controlEpoch && LastPacIs(run.log, Live) && HostIsReady(run.log)
      requires run.log != [] && JustReady(run.log, now)
      modifies this, run`log
      ensures run.Valid() && Sum(run.log) == Sum(old(run.log))
      ensures run.log == old(run.log) + [OpenedGate(false, old(now), true, failure.None?)]
      ensures failure.Some? ==> failure.value.SupersededControl? || failure.value.OtherFailure?
    {
      ghost var at := now;
      failure := Call();
      run.Note(OpenedGate(false, at, true, failure.None?));
    }

    method ReopenGate(run: Run) returns (failure: Option<Failure>)
      requires run.Valid() && run.epoch == controlEpoch && !run.navigationGateClosed
      requires run.priorStatus.proxyActive && run.priorCredentials.Some? && ReadyForGate(run.priorStatus.header, now)
      modifies this, run`log
      ensures run.Valid() && Sum(run.log) == Sum(old(run.log))
      ensures run.log == old(run.log) + [OpenedGate(true, old(now), true, failure.None?)]
      ensures failure.Some? ==> failure.value.SupersededControl? || failure.value.OtherFailure?
    {
      ghost var at := now;
      failure := Call();
      run.Note(OpenedGate(true, at, true, failure.None?));
    }

    // ---- the run ----

    /** The first part: gate, blocker, and the end of the connection that is replaced. */
    method Replace(run: Run) returns (failure: Option<Failure>)
      requires run.Valid() && !run.navigationGateClosed && !run.livePacConfirmed && !run.blockerConfirmed
      requires !run.recovering && !run.replacedConnectionDisconnected
      modifies this, run`log, run`blockerConfirmed, run`navigationGateClosed, run`replacedConnectionDisconnected
      ensures run.Valid() && !run.livePacConfirmed && old(run.log) <= run.log
      ensures failure.None? ==> run.blockerConfirmed && run.navigationGateClosed
      ensures !run.navigationGateClosed ==> run.log == old(run.log)
      ensures Sum(run.log) == Sum(old(run.log)).(pac := Sum(run.log).pac)
      ensures failure.Some? ==> failure.value.SupersededControl? || failure.value.OtherFailure?
    {
      hide Permitted, MayPublish, Disciplined, Sum, After, Run.Valid;
      failure := Call();
      if failure.Some? { return; }
      failure := RequireGeneration(run);
      if failure.Some? { return; }
      run.CloseGate();
      failure := InstallPac(run, Blocker);
      if failure.Some? { return; }
      failure := RequireGeneration(run);
      if failure.Some? { return; }
      run.ConfirmBlocker();
      credentials := None;
      PublishBlocked(run);
      if run.replacedConnection.Some? {
        var disconnected := DisconnectIfCurrent(run, run.replacedConnection.value);
        run.ReplacementEnded(disconnected);
      }
      failure := Call();
      if failure.Some? { return; }
      failure := RequireGeneration(run);
    }

    /** hello and start: the new native connection and its result.  Only a component that fits and a start with the
        local CA installed get past it; each other answer is its own failure. */
    method Contact(run: Run) returns (failure: Option<Failure>, result: StartResult)
      requires run.Valid() && run.activationConnection.None? && !run.livePacConfirmed
      requires Sum(run.log).component.None? && Sum(run.log).started.None?
      modifies this, run`log, run`activationConnection
      ensures run.Valid() && old(run.log) <= run.log && Sum(run.log).pac == Sum(old(run.log)).pac
      ensures failure.None? ==>
                RuntimeControlIsCurrent(run) && Sum(run.log).component == Some(Ready) &&
                Sum(run.log).started == Some(result) && result.caInstalled
      ensures failure.Some? ==> Explains(run.log, failure.value)
    {
      hide Permitted, MayPublish, Disciplined, Sum, Run.Valid;
      result := *;
      failure := Call();
      if failure.Some? { return; }
      failure := RequireGeneration(run);
      if failure.Some? { return; }
      run.Connect(connection);
      failure := RequireRuntime(run);
      if failure.Some? { return; }
      var component: Component := *;
      Learn(run, Inspected(component));
      match component {
        case VersionMismatch => return Some(ComponentUpdateRequired), result;
        case Incompatible => return Some(ComponentIncompatible), result;
        case Ready =>
      }
      failure := Call();
      if failure.Some? { return; }
      failure := RequireRuntime(run);
      if failure.Some? { return; }
      if * { return Some(OtherFailure), result; }
      Learn(run, Started(result));
      if !result.caInstalled { return Some(LocalCaRequired), result; }
    }

    ghost method Learn(run: Run, a: Action)
      requires run.Valid() && !run.livePacConfirmed
      requires a.Inspected? || (a.Started? && Sum(run.log).component == Some(Ready))
      modifies run`log
      ensures run.Valid() && run.log == old(run.log) + [a] && Sum(run.log) == After(Sum(old(run.log)), a)
    {
      run.Note(a);
    }

    /** Credentials first, then the live PAC; a native generation that changed meanwhile does not count. */
    method SelectLivePac(run: Run, result: StartResult) returns (failure: Option<Failure>)
      requires run.Valid() && run.navigationGateClosed && !run.livePacConfirmed && !run.recovering
      requires HostIsReady(run.log) && Sum(run.log).started == Some(result)
      modifies this, run`log, run`blockerConfirmed
      ensures run.Valid() && old(run.log) <= run.log && Sum(run.log) == Sum(old(run.log)).(pac := Sum(run.log).pac)
      ensures failure.None? ==> LastPacIs(run.log, Live) && RuntimeControlIsCurrent(run) && !run.blockerConfirmed
      ensures failure.Some? ==> failure.value.SupersededControl? || failure.value.OtherFailure?
    {
      hide Permitted, MayPublish, Disciplined, Sum, After, Run.Valid;
      credentials := Some(result.credentials);
      run.DoubtBlocker();
      failure := InstallPac(run, Live);
      if failure.Some? { return; }
      if !RuntimeControlIsCurrent(run) { return Some(OtherFailure); }
    }

    /** The header that the native host has, at once or after one synchronization, ready each time it was read. */
    method EstablishHeaderReadiness(run: Run, result: StartResult)
      returns (failure: Option<Failure>, header: Option<Header>)
      requires run.Valid()
      modifies this, run`log
      ensures run.Valid() && old(run.log) <= run.log && Sum(run.log) == Sum(old(run.log))
      ensures failure.None? ==>
                if ReadyForGate(result.header, old(now)) then
                  header == result.header && run.log == old(run.log) + [CheckedHeaders(header, old(now), true)]
                else exists synchronized, at, later ::
                  run.log == old(run.log) + [CheckedHeaders(result.header, old(now), false),
                                             CheckedHeaders(synchronized, at, true),
                                               CheckedHeaders(header, later, true)]
      ensures failure.Some? ==> failure.value.SupersededControl? || failure.value.OtherFailure?
    {
      hide Permitted, MayPublish, Disciplined, Sum, After, Run.Valid;
      header := result.header;
      var ready := CheckReady(run, header);
      if ready { return None, header; }
      failure := Call();
      if failure.Some? { return; }
      failure := RequireRuntime(run);
      if failure.Some? { return; }
      failure := Call();
      if failure.Some? { return; }
      failure := RequireRuntime(run);
      if failure.Some? { return; }
      if * { return Some(OtherFailure), header; }
      header := *;
      ready := CheckReady(run, header);
      if !ready { return Some(OtherFailure), header; }
      failure := Call();
      if failure.Some? { return; }
      failure := RequireRuntime(run);
      if failure.Some? { return; }
      header := *;
      ready := CheckReady(run, header);
      if !ready { return Some(OtherFailure), header; }
    }

    /** The live PAC, at once if the headers are not ready yet, and otherwise once they are confirmed ready. */
    method Activate(run: Run, result: StartResult) returns (failure: Option<Failure>, header: Option<Header>)
      requires run.Valid() && run.navigationGateClosed && !run.livePacConfirmed && !run.recovering
      requires HostIsReady(run.log) && Sum(run.log).started == Some(result) && RuntimeControlIsCurrent(run)
      modifies this, run`log, run`blockerConfirmed, run`livePacConfirmed
      ensures run.Valid() && old(run.log) <= run.log && Sum(run.log) == Sum(old(run.log)).(pac := Sum(run.log).pac)
      ensures failure.None? ==>
                run.livePacConfirmed && LastPacIs(run.log, Live) && RuntimeControlIsCurrent(run) &&
                LastEntryIs(run.log, CheckedHeaders(header, now, true))
      ensures failure.Some? ==> failure.value.SupersededControl? || failure.value.OtherFailure?
    {
      hide Permitted, MayPublish, Disciplined, Sum, After, Run.Valid, ReadyForGate;
      header := result.header;
      var ready := CheckReady(run, header);
      if !ready {
        failure := SelectLivePac(run, result);
        if failure.Some? { return; }
        PublishWaiting(run, result.header);
        run.ConfirmLivePac();
      }
      failure, header := EstablishHeaderReadiness(run, result);
      if failure.Some? { return; }
      failure := RequireRuntime(run);
      if failure.Some? { return; }
      ready := CheckReady(run, header);
      if !ready { return Some(OtherFailure), header; }
      if !run.livePacConfirmed {
        failure := SelectLivePac(run, result);
        if failure.Some? { return; }
        ready := CheckReady(run, header);
        if !ready { return Some(OtherFailure), header; }
        run.ConfirmLivePac();
      }
    }

    /** The normal path. */
    method Try(run: Run) returns (failure: Option<Failure>)
      requires run.Valid() && !run.navigationGateClosed && !run.livePacConfirmed && !run.blockerConfirmed
      requires !run.recovering && run.activationConnection.None? && !run.replacedConnectionDisconnected
      requires Sum(run.log) == Summary(None, None, None)
      modifies this, run
      ensures run.Valid() && !run.recovering && old(run.log) <= run.log
      ensures failure.None? ==>
                LastPacIs(run.log, Live) && RuntimeControlIsCurrent(run) && exists header, given, c, at ::
                  LastEntryIs(run.log, Published(Status(Active, NoReason, true, header), given, c, at, true))
      ensures failure.Some? ==> Explains(run.log, failure.value)
      ensures !run.navigationGateClosed ==> run.log == old(run.log)
    {
      hide Permitted, MayPublish, Disciplined, Sum, After, Run.Valid;
      failure := Replace(run);
      if failure.Some? { return; }
      var result, header;
      failure, result := Contact(run);
      if failure.Some? { return; }
      failure, header := Activate(run, result);
      if failure.Some? { return; }
      failure := OpenGate(run);
      if failure.Some? { return; }
      failure := RequireRuntime(run);
      if failure.Some? { return; }
      PublishActive(run, header);
      failure := Call();
      if failure.Some? { return; }
      failure := RequireRuntime(run);
    }

    /** Whose turn it is no longer, or whose epoch. */
    predicate Outdated(run: Run, error: Failure)
      reads this`controlEpoch
    {
      run.epoch != controlEpoch || error.SupersededControl?
    }

    /** The live runtime is kept in spite of the error. */
    predicate Keeps(run: Run)
      reads this`controlEpoch, this`connection, this`credentials, run`activationConnection, run`livePacConfirmed
    {
      run.livePacConfirmed && RuntimeControlIsCurrent(run) && credentials.Some?
    }

    /** The catch clause: `None` when the run ends with the live runtime kept.  A superseded run does nothing more;
        with its gate never closed it at most reopens it; a runtime that is kept keeps its PAC and is published as
        waiting for headers; any other run ends with an attempt at the blocker, and disconnects only behind a confirmed
        one.  What it publishes is what the log permits: Blocked exactly for a host that is not ready. */
    method Recover(run: Run, error: Failure) returns (failure: Option<Failure>)
      requires run.Valid() && !run.recovering && Explains(run.log, error)
      requires !run.navigationGateClosed ==> !run.log[|run.log| - 1].OpenedGate?
      modifies this, run
      ensures run.Valid() && old(run.log) <= run.log
      ensures old(run.epoch != controlEpoch || error == SupersededControl) ==>
                failure == Some(SupersededControl) && run.log == old(run.log)
      ensures old(run.epoch == controlEpoch && error != SupersededControl && !run.navigationGateClosed) ==>
                failure.Some? && RestoredFrom(old(run.log), run.log)
      ensures old(run.epoch == controlEpoch && error != SupersededControl && run.navigationGateClosed) ==>
                if old(run.livePacConfirmed && connection.Some? && connection == run.activationConnection &&
                       credentials.Some?)
                then LastPacIs(run.log, Live) && run.log == old(run.log) +
                       [Published(Status(Degraded, HeaderReadinessUnavailable, true, old(status.header)),
                                  old(credentials), old(connection), old(now), true)]
                else failure.Some? && Sum(run.log).pac.Some? && Sum(run.log).pac.value.pac == Blocker &&
                     exists blocked, ended :: BlockedFrom(old(run.log), blocked) && EndedFrom(blocked, ended) &&
                       ToldFrom(ended, run.log)
    {
      if Outdated(run, error) {
        return Some(SupersededControl);
      }
      if !run.navigationGateClosed {
        failure := Restore(run);
        return;
      }
      if Keeps(run) {
        PublishWaiting(run, status.header);
        failure := Call();
        return;
      }
      failure := Block(run, error);
    }

    /** The blocker, unless it stands already; then the connections end, and the failure is published and passed on. */
    method Block(run: Run, error: Failure) returns (failure: Option<Failure>)
      requires run.Valid() && !run.recovering && run.navigationGateClosed && run.epoch == controlEpoch
      requires Explains(run.log, error) && !error.SupersededControl?
      modifies this, run
      ensures run.Valid() && failure.Some? && Sum(run.log).pac.Some? && Sum(run.log).pac.value.pac == Blocker
      ensures exists blocked, ended :: BlockedFrom(old(run.log), blocked) && EndedFrom(blocked, ended) &&
                ToldFrom(ended, run.log)
      ensures failure != Some(SupersededControl) ==> run.log[|run.log| - 1].Published?
    {
      hide Permitted, MayPublish, Disciplined, Sum, After, Run.Valid;
      if !run.blockerConfirmed {
        run.BeginRecovery();
        failure := InstallPac(run, Blocker);
        ghost var attempted := run.log;
        assert BlockedFrom(old(run.log), attempted) && EndedFrom(attempted, attempted);
        if failure.None? { failure := RequireGeneration(run); }
        if failure.Some? && failure.value.SupersededControl? {
          return;
        }
        if failure.Some? {
          failure := KeepUncertain(run);
          return;
        }
        run.ConfirmBlocker();
      }
      ghost var blocked := run.log;
      assert BlockedFrom(old(run.log), blocked);
      failure := Tell(run, error);
    }

    /** The PAC that is selected is uncertain, so the connection it may need is kept. */
    method KeepUncertain(run: Run) returns (failure: Option<Failure>)
      requires run.Valid() && run.recovering && Sum(run.log).pac == Some(Selected(Blocker, false))
      modifies this, run`log
      ensures run.Valid() && failure.Some? && Sum(run.log) == Sum(old(run.log))
      ensures exists s: Status, given, c, at, current :: s.reason == BlockingPacInstallFailed && s.state == Degraded &&
                run.log == old(run.log) + [Published(s, given, c, at, current)]
    {
      if !run.replacedConnectionDisconnected { credentials := run.priorCredentials; }
      var retained := if run.replacedConnectionDisconnected then status else run.priorStatus;
      Publish(run, Status(Degraded, BlockingPacInstallFailed, credentials.Some?, retained.header));
      var late := Call();
      return if late.Some? then late else Some(OtherFailure);
    }

    /** Behind the confirmed blocker: the connections end, and the failure is published, as Blocked for a host that
        is not ready. */
    method Tell(run: Run, error: Failure) returns (failure: Option<Failure>)
      requires run.Valid() && run.blockerConfirmed && run.epoch == controlEpoch
      requires Explains(run.log, error) && !error.SupersededControl?
      modifies this, run`log
      ensures run.Valid() && failure.Some? && Sum(run.log) == Sum(old(run.log)) && LastPacIs(run.log, Blocker)
      ensures exists ended, s: Status, c, at ::
                EndedFrom(old(run.log), ended) && run.log == ended + [Published(s, None, c, at, true)] &&
                s.reason == Because(error) && s.state == if Cause(run.log).Some? then Blocked else Degraded
    {
      hide Permitted, MayPublish, Disciplined, Sum, After, Run.Valid;
      EndConnections(run);
      ghost var ended := run.log;
      PublishFailure(run, error);
      assert EndedFrom(old(run.log), ended) && run.log == ended + [Published(status, None, connection, now, true)];
      var late := Call();
      return if late.Some? then late else Some(error);
    }

    /** Nothing was changed yet: the gate of the prior runtime is reopened if it was ready, and what it published stands
        again; otherwise it is published as degraded. */
    method Restore(run: Run) returns (failure: Option<Failure>)
      requires run.Valid() && !run.navigationGateClosed && run.epoch == controlEpoch
      requires !run.log[|run.log| - 1].OpenedGate?
      modifies this, run`log
      ensures run.Valid() && failure.Some? && RestoredFrom(old(run.log), run.log)
    {
      hide Disciplined, Sum, After, Opened, JustReady, HostIsReady, Released, OwnIs;
      credentials := run.priorCredentials;
      var restored := false;
      if run.priorStatus.proxyActive && run.priorCredentials.Some? && ReadyForGate(run.priorStatus.header, now) {
        failure := ReopenGate(run);
        if failure.None? { failure := RequireGeneration(run); }
        if failure.Some? && failure.value.SupersededControl? { return; }
        restored := failure.None?;
      }
      if restored {
        status := run.priorStatus;
        run.Note(PublishedPrior(status, run.epoch == controlEpoch));
      } else {
        var active := run.priorStatus.proxyActive && run.priorCredentials.Some?;
        Publish(run, Status(Degraded, NavigationGateTransitionFailed, active, run.priorStatus.header));
      }
      var late := Call();
      return if late.Some? then late else Some(GateTransitionFailed);
    }

    /** The connection that this run still answers for. */
    function Owned(run: Run): Option<int>
      reads run`activationConnection, run`replacedConnectionDisconnected
    {
      if run.activationConnection.Some? then run.activationConnection
      else if run.replacedConnectionDisconnected then None
      else run.replacedConnection
    }

    method EndConnections(run: Run)
      requires run.Valid() && run.blockerConfirmed && run.epoch == controlEpoch
      modifies this`credentials, this`connection, run`log
      ensures run.Valid() && credentials.None? && (Owned(run).Some? ==> connection != Owned(run)) &&
              Released(run.log, connection)
      ensures Sum(run.log) == Sum(old(run.log)) && LastPacIs(run.log, Blocker)
      ensures run.log == if Owned(run).Some? && old(connection) == Owned(run)
                         then old(run.log) + [Disconnected(Owned(run).value, true)] else old(run.log)
    {
      credentials := None;
      if run.activationConnection.Some? {
        var _ := DisconnectIfCurrent(run, run.activationConnection.value);
      } else if run.replacedConnection.Some? && !run.replacedConnectionDisconnected {
        var _ := DisconnectIfCurrent(run, run.replacedConnection.value);
      }
    }

    /** One whole run: whatever fails and whoever competes, its log is disciplined. */
    method StartRuntime() returns (failure: Option<Failure>, run: Run)
      modifies this
      ensures Disciplined(run.log)
    {
      controlEpoch := controlEpoch + 1;
      run := new Run(controlEpoch, connection, status, credentials);
      Publish(run, Status(Starting, NoReason, status.proxyActive && credentials.Some?, status.header));
      failure := Try(run);
      if failure.Some? {
        failure := Recover(run, failure.value);
      }
    }
  }
}

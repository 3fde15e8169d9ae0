/**
 The single-daemon protocol: any number of `harnessd` processes and connecting
 clients share one data directory. The shared state is the advisory lock
 `daemon.lock`, the discovery file `daemon.json` (written through a temporary
 file and a rename) and the one endpoint name derived from the directory.
 Each step below is one atomic effect of one process; a process can crash
 between any two of its steps, and the operating system then frees its lock
 and its listener but leaves its files.
 */
module SingleDaemon {
  import opened Common

  /** One run of a daemon process. Unlike a pid it is never used twice. */
  type Instance = nat
  type ClientId = nat

  /** Exit code of a daemon that found the lock taken. */
  const EXIT_ALREADY_RUNNING := 3
  const EXIT_FAILED := 1
  const EXIT_OK := 0

  /**
   The contents of `daemon.json`. `writer` is bookkeeping for the statements
   below: no step reads it to make a decision.
   */
  datatype Info = Info(pid: nat, token: nat, api: nat, writer: Instance)

  /** How far a daemon is in `run` and `serve_socket`. */
  datatype Phase =
    | Starting            // before the lock
    | Locked              // lock taken, store not open yet
    | StoreOpen           // store open, nothing bound
    | Bound               // listening, daemon.json not touched yet
    | Staged              // temporary file written
    | Serving             // daemon.json renamed into place
    | Draining            // listener dropped, finishing in-flight work
    | Removed             // daemon.json removed, lock still held
    | Unwinding           // start-up failed, lock still held
    | Exited(code: nat)
    | Crashed

  /** Why a daemon was asked to stop; the first reason wins. */
  datatype Reason =
    | Signal
    | Idle
    | Authenticated                        // daemon.shutdown after a handshake
    | Replaced(token: nat, clientApi: nat) // daemon.shutdown with a token only

  datatype Daemon = Daemon(pid: nat, api: nat, token: Option<nat>, published: bool, phase: Phase, stop: Option<Reason>)

  /** The child a client started and the pid it knows to be out of date. */
  datatype Poll = Poll(child: Instance, stale: Option<nat>)

  /** How far a client is in `DaemonClient::connect`. */
  datatype Stage =
    | Begin
    | Dialing(info: Info, poll: Option<Poll>)
    | Greeting(info: Info, peer: Instance, poll: Option<Poll>)
    | ReplaceDialing(info: Info, answered: Instance)
    | ReplaceAsking(info: Info, answered: Instance, peer: Instance)
    | ReplaceWaiting(info: Info)
    | Launching(stale: Option<nat>)
    | Polling(watch: Poll)
    | Done(info: Info, peer: Instance, spawned: bool)
    | Failed(why: Why)

  /** The errors of `connect`. */
  datatype Why =
    | NotRunning    // nobody answers and spawning is not allowed
    | Incompatible  // another API, and not to be replaced
    | Refused       // the handshake was answered with another error
    | CannotStart
    | ChildExited
    | TimedOut

  datatype Client = Client(api: nat, spawnIfMissing: bool, stage: Stage)

  /** What the processes share: the lock, the endpoint name and the files of one data directory. */
  datatype Shared = Shared(lock: Option<Instance>, endpoint: Option<Instance>, file: Option<Info>, tmps: map<nat, Info>)

  datatype World = World(shared: Shared, daemons: map<Instance, Daemon>, clients: map<ClientId, Client>)

  /** One effect of a daemon process. */
  datatype Act =
    | Acquire
    | OpenStore
    | Bind(token: nat)
    | Stage
    | Publish
    | FailStart
    | RequestStop(reason: Reason)
    | StopAccepting
    | RemoveFile
    | RemoveFails
    | Release
    | Crash

  /** One effect of a connecting client. */
  datatype ClientAct =
    | ReadFile
    | Dial
    | Hello
    | Unreachable
    | ReplaceDial
    | AskShutdown
    | GiveUpAsking
    | OldIsGone
    | CannotLaunch
    | ChildEnded
    | PollFile
    | TimeOut
    | StopPeer

  datatype Step =
    | Spawn(i: Instance, pid: nat, api: nat)
    | Daemon_(i: Instance, act: Act)
    | Arrive(c: ClientId, clientApi: nat, spawnIfMissing: bool)
    | Client_(c: ClientId, go: ClientAct)
    | Launch(c: ClientId, i: Instance, pid: nat, api: nat)

  // ------------------------------------------------------------ phases

  predicate HoldsLock(p: Phase) {
    p.Locked? || p.StoreOpen? || p.Bound? || p.Staged? || p.Serving? || p.Draining? || p.Removed? || p.Unwinding?
  }

  predicate Listens(p: Phase) {
    p.Bound? || p.Staged? || p.Serving?
  }

  /** Between the rename that publishes `daemon.json` and its removal. */
  predicate OwnsFile(p: Phase) {
    p.Serving? || p.Draining?
  }

  predicate Live(p: Phase) {
    !p.Exited? && !p.Crashed?
  }

  /** Answers requests on connections it accepted. */
  predicate Answers(p: Phase) {
    p.Serving? || p.Draining?
  }

  function InfoOf(d: Daemon, i: Instance): Info
    requires d.token.Some?
  {
    Info(d.pid, d.token.value, d.api, i)
  }

  // ------------------------------------------------------------ steps of one daemon

  datatype Outcome = Outcome(shared: Shared, daemon: Daemon)

  /** `request_shutdown`: the first reason is kept. */
  function Ask(d: Daemon, reason: Reason): Daemon {
    if d.stop.Some? then d else d.(stop := Some(reason))
  }

  /** What `act` does to the shared state and to daemon `i` itself; `None` when it is not its turn. */
  function Perform(sh: Shared, d: Daemon, i: Instance, act: Act): Option<Outcome> {
    match act
    case Acquire =>
      if !d.phase.Starting? then None
      else if sh.lock.None? then Some(Outcome(sh.(lock := Some(i)), d.(phase := Locked)))
      else Some(Outcome(sh, d.(phase := Exited(EXIT_ALREADY_RUNNING))))
    case OpenStore =>
      if d.phase.Locked? then Some(Outcome(sh, d.(phase := StoreOpen))) else None
    case Bind(token) =>
      // Binding overwrites whatever listener the name had.
      if d.phase.StoreOpen? then Some(Outcome(sh.(endpoint := Some(i)), d.(phase := Bound, token := Some(token)))) else None
    case Stage =>
      if d.phase.Bound? && d.token.Some?
      then Some(Outcome(sh.(tmps := sh.tmps[d.pid := InfoOf(d, i)]), d.(phase := Staged))) else None
    case Publish =>
      // rename: whatever the temporary file of this pid holds becomes daemon.json
      if d.phase.Staged? && d.pid in sh.tmps
      then Some(Outcome(sh.(file := Some(sh.tmps[d.pid]), tmps := sh.tmps - {d.pid}), d.(phase := Serving, published := true)))
      else None
    case FailStart =>
      // An error before serving: the listener is dropped, a staged file deleted.
      if d.phase.Locked? || d.phase.StoreOpen? then Some(Outcome(sh, d.(phase := Unwinding)))
      else if d.phase.Bound? || d.phase.Staged?
      then Some(Outcome(sh.(endpoint := None, tmps := sh.tmps - {d.pid}), d.(phase := Unwinding)))
      else None
    case RequestStop(reason) =>
      if d.phase.Serving? && (reason.Signal? || reason.Idle?) then Some(Outcome(sh, Ask(d, reason))) else None
    case StopAccepting =>
      if d.phase.Serving? && d.stop.Some? then Some(Outcome(sh.(endpoint := None), d.(phase := Draining))) else None
    case RemoveFile =>
      // The file is removed without looking at what it says.
      if d.phase.Draining? then Some(Outcome(sh.(file := None), d.(phase := Removed))) else None
    case RemoveFails =>
      if d.phase.Draining? then Some(Outcome(sh, d.(phase := Removed))) else None
    case Release =>
      if d.phase.Removed? then Some(Outcome(sh.(lock := None), d.(phase := Exited(EXIT_OK))))
      else if d.phase.Unwinding? then Some(Outcome(sh.(lock := None), d.(phase := Exited(EXIT_FAILED))))
      else None
    case Crash =>
      // The operating system frees the lock and the listener, nothing else.
      if !Live(d.phase) then None
      else Some(Outcome(sh.(lock := if HoldsLock(d.phase) then None else sh.lock,
                            endpoint := if Listens(d.phase) then None else sh.endpoint), d.(phase := Crashed)))
  }

  // ------------------------------------------------------------ steps of one client

  /** What follows a failed attempt: poll again, or (the first time) launch. */
  function AfterUnreachable(info: Info, poll: Option<Poll>, spawn: bool): Stage {
    match poll
    case Some(p) => Polling(p)
    case None => if spawn then Launching(Some(info.pid)) else Failed(NotRunning)
  }

  /** The daemon's answer to `daemon.hello`, and what `connect` does with it. */
  function AfterHello(c: Client, peer: Daemon, id: Instance, info: Info, poll: Option<Poll>): Stage {
    if peer.api != c.api then
      if poll.Some? then Failed(Refused)
      else if peer.api >= c.api || !c.spawnIfMissing then Failed(Incompatible)
      else ReplaceDialing(info, id)
    else if peer.token != Some(info.token) then Failed(Refused)
    else Done(info, id, poll.Some?)
  }

  predicate CanAnswer(ds: map<Instance, Daemon>, i: Instance) {
    i in ds && Answers(ds[i].phase)
  }

  /** The stage `go` takes client `c` to; `None` when it is not its turn. */
  function Advance(w: World, c: Client, go: ClientAct): Option<Stage> {
    var st := c.stage;
    match go
    case ReadFile =>
      if !st.Begin? then None
      else if w.shared.file.Some? then Some(Dialing(w.shared.file.value, None))
      else if c.spawnIfMissing then Some(Launching(None)) else Some(Failed(NotRunning))
    case Dial =>
      if st.Dialing? && w.shared.endpoint.Some? then Some(Greeting(st.info, w.shared.endpoint.value, st.poll)) else None
    case Hello =>
      if st.Greeting? && CanAnswer(w.daemons, st.peer)
      then Some(AfterHello(c, w.daemons[st.peer], st.peer, st.info, st.poll)) else None
    case Unreachable =>
      // Nothing listens, the transport broke or an attempt timed out.
      if st.Dialing? || st.Greeting? then Some(AfterUnreachable(st.info, st.poll, c.spawnIfMissing)) else None
    case ReplaceDial =>
      if st.ReplaceDialing? && w.shared.endpoint.Some?
      then Some(ReplaceAsking(st.info, st.answered, w.shared.endpoint.value)) else None
    case AskShutdown =>
      if st.ReplaceAsking? && CanAnswer(w.daemons, st.peer) then Some(ReplaceWaiting(st.info)) else None
    case GiveUpAsking =>
      if st.ReplaceDialing? || st.ReplaceAsking? then Some(ReplaceWaiting(st.info)) else None
    case OldIsGone =>
      // The old daemon is gone, or the wait timed out: launch either way.
      if st.ReplaceWaiting? then Some(Launching(Some(st.info.pid))) else None
    case CannotLaunch =>
      if st.Launching? then Some(Failed(CannotStart)) else None
    case ChildEnded =>
      // Exit 3: another daemon won the lock, so the file's daemon is alive
      // after all; any other end is a start-up failure.
      if st.Polling? && st.watch.child in w.daemons && !Live(w.daemons[st.watch.child].phase) then
        if w.daemons[st.watch.child].phase == Exited(EXIT_ALREADY_RUNNING)
        then Some(Polling(st.watch.(stale := None))) else Some(Failed(ChildExited))
      else None
    case PollFile =>
      if st.Polling? && w.shared.file.Some? && Some(w.shared.file.value.pid) != st.watch.stale
      then Some(Dialing(w.shared.file.value, Some(st.watch))) else None
    case TimeOut =>
      if st.Polling? then Some(Failed(TimedOut)) else None
    case StopPeer =>
      if st.Done? && CanAnswer(w.daemons, st.peer) then Some(st) else None
  }

  /** The shutdown request `go` gets honoured, if any. Without a handshake only the token authorises it. */
  function Request(w: World, c: Client, go: ClientAct): Option<(Instance, Reason)> {
    var st := c.stage;
    if go.AskShutdown? && st.ReplaceAsking? && CanAnswer(w.daemons, st.peer) && w.daemons[st.peer].token == Some(st.info.token)
    then Some((st.peer, Replaced(st.info.token, c.api)))
    else if go.StopPeer? && st.Done? && CanAnswer(w.daemons, st.peer) then Some((st.peer, Authenticated))
    else None
  }

  function Granted(ds: map<Instance, Daemon>, r: Option<(Instance, Reason)>): map<Instance, Daemon> {
    if r.Some? && r.value.0 in ds then ds[r.value.0 := Ask(ds[r.value.0], r.value.1)] else ds
  }

  // ------------------------------------------------------------ runs

  /** A run starts in an empty data directory. */
  const EMPTY := World(Shared(None, None, None, map[]), map[], map[])

  predicate FreshProcess(w: World, i: Instance, pid: nat) {
    i !in w.daemons && forall j | j in w.daemons && Live(w.daemons[j].phase) :: w.daemons[j].pid != pid
  }

  function Newborn(pid: nat, api: nat): Daemon {
    Daemon(pid, api, None, false, Starting, None)
  }

  /** Tokens are 256 random bits: a new one never equals another daemon's. */
  predicate FreshToken(w: World, act: Act) {
    act.Bind? ==> forall j | j in w.daemons :: w.daemons[j].token != Some(act.token)
  }

  predicate Enabled(w: World, s: Step) {
    match s
    case Spawn(i, pid, api) => FreshProcess(w, i, pid)
    case Daemon_(i, act) => i in w.daemons && FreshToken(w, act) && Perform(w.shared, w.daemons[i], i, act).Some?
    case Arrive(c, api, spawn) => c !in w.clients
    case Client_(c, go) => c in w.clients && Advance(w, w.clients[c], go).Some?
    case Launch(c, i, pid, api) => c in w.clients && w.clients[c].stage.Launching? && FreshProcess(w, i, pid)
  }

  function Next(w: World, s: Step): World
    requires Enabled(w, s)
  {
    match s
    case Spawn(i, pid, api) => w.(daemons := w.daemons[i := Newborn(pid, api)])
    case Daemon_(i, act) =>
      var o := Perform(w.shared, w.daemons[i], i, act).value;
      w.(shared := o.shared, daemons := w.daemons[i := o.daemon])
    case Arrive(c, api, spawn) => w.(clients := w.clients[c := Client(api, spawn, Begin)])
    case Client_(c, go) =>
      var stage := Advance(w, w.clients[c], go).value;
      w.(daemons := Granted(w.daemons, Request(w, w.clients[c], go)),
         clients := w.clients[c := w.clients[c].(stage := stage)])
    case Launch(c, i, pid, api) =>
      w.(daemons := w.daemons[i := Newborn(pid, api)],
         clients := w.clients[c := w.clients[c].(stage := Polling(Poll(i, w.clients[c].stage.stale)))])
  }

  /** Any steps in any order, each possible where it is taken. */
  predicate Runs(w: World, steps: seq<Step>)
    decreases |steps|
  {
    steps == [] || (Enabled(w, steps[0]) && Runs(Next(w, steps[0]), steps[1..]))
  }

  /** Where a run leads; every state of a run is where some run leads. */
  function Run(w: World, steps: seq<Step>): World
    requires Runs(w, steps)
    decreases |steps|
  {
    if steps == [] then w else Run(Next(w, steps[0]), steps[1..])
  }

  // ------------------------------------------------------------ the invariant

  /** How daemon `i` and the shared state agree. */
  predicate Agrees(sh: Shared, d: Daemon, i: Instance) {
    && (HoldsLock(d.phase) <==> sh.lock == Some(i))
    && (Listens(d.phase) <==> sh.endpoint == Some(i))
    && (OwnsFile(d.phase) ==> d.token.Some? && sh.file == Some(InfoOf(d, i)))
    && (d.phase.Staged? ==> d.token.Some? && d.pid in sh.tmps && sh.tmps[d.pid] == InfoOf(d, i))
  }

  predicate DaemonOk(d: Daemon) {
    && (d.phase.Starting? || d.phase.Locked? || d.phase.StoreOpen? ==> d.token.None?)
    && (Listens(d.phase) || OwnsFile(d.phase) || d.published ==> d.token.Some?)
    && (OwnsFile(d.phase) ==> d.published)
    && (d.published ==> OwnsFile(d.phase) || d.phase.Removed? || !Live(d.phase))
    && (d.stop.Some? ==> d.published)
    && (d.phase.Draining? || d.phase.Removed? || d.phase == Exited(EXIT_OK) ==> d.stop.Some?)
    && (d.phase == Exited(EXIT_ALREADY_RUNNING) ==> d.token.None?)
    && (d.phase.Unwinding? || d.phase == Exited(EXIT_FAILED) ==> !d.published)
    && (d.stop.Some? && d.stop.value.Replaced? ==> d.token == Some(d.stop.value.token) && d.api < d.stop.value.clientApi)
  }

  predicate AgreeInv(w: World) {
    && (w.shared.lock.Some? ==> w.shared.lock.value in w.daemons)
    && (w.shared.endpoint.Some? ==> w.shared.endpoint.value in w.daemons)
    && forall i | i in w.daemons :: DaemonOk(w.daemons[i]) && Agrees(w.shared, w.daemons[i], i)
  }

  predicate Distinct(d: Daemon, e: Daemon) {
    && (d.token.Some? ==> d.token != e.token)
    && (Live(d.phase) && Live(e.phase) ==> d.pid != e.pid)
  }

  predicate DistinctInv(w: World) {
    forall i, j | i in w.daemons && j in w.daemons && i != j :: Distinct(w.daemons[i], w.daemons[j])
  }

  /** `info` is what the daemon it names published. */
  predicate Genuine(ds: map<Instance, Daemon>, info: Info) {
    && info.writer in ds
    && ds[info.writer].published
    && ds[info.writer].token.Some?
    && info == InfoOf(ds[info.writer], info.writer)
  }

  predicate FileInv(w: World) {
    w.shared.file.Some? ==> Genuine(w.daemons, w.shared.file.value)
  }

  /** The writer of `info` will never listen again. */
  predicate Past(ds: map<Instance, Daemon>, info: Info) {
    info.writer in ds && ds[info.writer].published && !Listens(ds[info.writer].phase)
  }

  predicate StageOk(ds: map<Instance, Daemon>, c: Client) {
    match c.stage
    case Dialing(info, _) => Genuine(ds, info)
    case Greeting(info, peer, _) => Genuine(ds, info) && peer in ds && (peer == info.writer || Past(ds, info))
    case ReplaceDialing(info, answered) =>
      Genuine(ds, info) && answered in ds && ds[answered].api < c.api && (answered == info.writer || Past(ds, info))
    case ReplaceAsking(info, answered, peer) =>
      Genuine(ds, info) && answered in ds && peer in ds && ds[answered].api < c.api
      && (peer == info.writer ==> answered == peer)
    case Done(info, peer, _) => Genuine(ds, info) && peer == info.writer && info.api == c.api
    case _ => true
  }

  predicate Watches(ds: map<Instance, Daemon>, c: Client, watch: Poll) {
    c.spawnIfMissing && watch.child in ds
  }

  /** Only a client that may spawn gets to the stages that lead to a new daemon, and it never dials the daemon it knows to be stale. */
  predicate AttemptOk(ds: map<Instance, Daemon>, c: Client) {
    match c.stage
    case Dialing(info, Some(p)) => Watches(ds, c, p) && Some(info.pid) != p.stale
    case Greeting(info, _, Some(p)) => Watches(ds, c, p) && Some(info.pid) != p.stale
    case ReplaceDialing(_, _) => c.spawnIfMissing
    case ReplaceAsking(_, _, _) => c.spawnIfMissing
    case ReplaceWaiting(_) => c.spawnIfMissing
    case Launching(_) => c.spawnIfMissing
    case Polling(watch) => Watches(ds, c, watch)
    case Done(_, _, spawned) => spawned ==> c.spawnIfMissing
    case Failed(why) => if why.NotRunning? then !c.spawnIfMissing else why.Incompatible? || why.Refused? || c.spawnIfMissing
    case _ => true
  }

  predicate ClientInv(w: World) {
    forall c | c in w.clients :: StageOk(w.daemons, w.clients[c]) && AttemptOk(w.daemons, w.clients[c])
  }

  predicate Inv(w: World) {
    AgreeInv(w) && DistinctInv(w) && FileInv(w) && ClientInv(w)
  }

  // ------------------------------------------------------------ one daemon's step

  /** What never changes about a daemon as its run goes on. */
  predicate Grows(d: Daemon, d': Daemon) {
    && d'.pid == d.pid && d'.api == d.api
    && (d.token.Some? ==> d'.token == d.token)
    && (d.published ==> d'.published)
    && (d.published && !Listens(d.phase) ==> !Listens(d'.phase))
    && (Live(d'.phase) ==> Live(d.phase))
    && (d.stop.Some? ==> d'.stop == d.stop)
  }

  lemma PerformKeepsDaemon(sh: Shared, d: Daemon, i: Instance, act: Act)
    requires DaemonOk(d) && Agrees(sh, d, i) && Perform(sh, d, i, act).Some?
    ensures var o := Perform(sh, d, i, act).value;
            DaemonOk(o.daemon) && Grows(d, o.daemon) && Agrees(o.shared, o.daemon, i)
    ensures var o := Perform(sh, d, i, act).value;
            o.daemon.token == d.token || (act.Bind? && o.daemon.token == Some(act.token))
  {}

  /** A daemon that acts on a shared resource holds it, or nobody does. */
  lemma PerformTouchesItsOwn(sh: Shared, d: Daemon, i: Instance, act: Act)
    requires DaemonOk(d) && Agrees(sh, d, i) && Perform(sh, d, i, act).Some?
    ensures var sh' := Perform(sh, d, i, act).value.shared;
            && (sh'.lock == sh.lock || ((sh.lock == None || sh.lock == Some(i)) && (sh'.lock == None || sh'.lock == Some(i))))
            && (sh'.endpoint == sh.endpoint || (sh.lock == Some(i) && (sh'.endpoint == None || sh'.endpoint == Some(i))))
            && (sh'.file == sh.file || (sh.lock == Some(i) &&
                  (if act.Publish? then d.token.Some? && sh'.file == Some(InfoOf(d, i))
                   else act.RemoveFile? && sh'.file == None)))
            && (forall p | p != d.pid && p in sh.tmps :: p in sh'.tmps && sh'.tmps[p] == sh.tmps[p])
  {}

  /** The other daemons still agree with the shared state afterwards. */
  lemma PerformSparesOthers(sh: Shared, d: Daemon, i: Instance, act: Act, e: Daemon, j: Instance)
    requires DaemonOk(d) && Agrees(sh, d, i) && Perform(sh, d, i, act).Some?
    requires i != j && DaemonOk(e) && Agrees(sh, e, j) && Distinct(d, e)
    ensures Agrees(Perform(sh, d, i, act).value.shared, e, j)
  {
    PerformTouchesItsOwn(sh, d, i, act);
  }

  lemma DaemonStepKept(w: World, w': World, s: Step)
    requires AgreeInv(w) && DistinctInv(w) && s.Daemon_? && Enabled(w, s) && w' == Next(w, s)
    ensures AgreeInv(w')
  {
    var i, act := s.i, s.act;
    PerformTouchesItsOwn(w.shared, w.daemons[i], i, act);
    forall j | j in w'.daemons ensures DaemonOk(w'.daemons[j]) && Agrees(w'.shared, w'.daemons[j], j) {
      if j == i {
        PerformKeepsDaemon(w.shared, w.daemons[i], i, act);
      } else {
        PerformSparesOthers(w.shared, w.daemons[i], i, act, w.daemons[j], j);
      }
    }
  }

  // ------------------------------------------------------------ all steps, one daemon at a time

  lemma NewbornKept(w: World, w': World, i: Instance, pid: nat, api: nat)
    requires AgreeInv(w) && FreshProcess(w, i, pid) && w'.shared == w.shared && w'.daemons == w.daemons[i := Newborn(pid, api)]
    ensures AgreeInv(w')
  {}

  /** A token belongs to the daemon that published it and to no other. */
  lemma TokenNamesWriter(w: World, info: Info, j: Instance)
    requires DistinctInv(w) && Genuine(w.daemons, info)
    requires j in w.daemons && w.daemons[j].token == Some(info.token)
    ensures j == info.writer
  {}

  /** A token-only shutdown that is honoured reaches an older daemon, the one the client's file names. */
  lemma ReplacedIsOlder(w: World, c: Client, go: ClientAct)
    requires DistinctInv(w) && StageOk(w.daemons, c)
    requires Request(w, c, go).Some? && Request(w, c, go).value.1.Replaced?
    ensures var (j, reason) := Request(w, c, go).value;
            && j in w.daemons
            && w.daemons[j].token == Some(reason.token)
            && w.daemons[j].api < reason.clientApi
            && c.stage.ReplaceAsking? && j == c.stage.info.writer
  {
    TokenNamesWriter(w, c.stage.info, c.stage.peer);
  }

  lemma GrantedKept(w: World, w': World, s: Step)
    requires AgreeInv(w) && DistinctInv(w) && ClientInv(w) && s.Client_? && Enabled(w, s) && w' == Next(w, s)
    ensures AgreeInv(w')
  {
    var c := w.clients[s.c];
    assert StageOk(w.daemons, c);
    var r := Request(w, c, s.go);
    if r.Some? && r.value.1.Replaced? {
      ReplacedIsOlder(w, c, s.go);
    }
    forall j | j in w'.daemons ensures DaemonOk(w'.daemons[j]) && Agrees(w'.shared, w'.daemons[j], j) {
      assert DaemonOk(w.daemons[j]) && Agrees(w.shared, w.daemons[j], j);
    }
  }

  lemma AgreeKept(w: World, w': World, s: Step)
    requires Inv(w) && Enabled(w, s) && w' == Next(w, s)
    ensures AgreeInv(w')
  {
    match s
    case Spawn(i, pid, api) => NewbornKept(w, w', i, pid, api);
    case Daemon_(_, _) => DaemonStepKept(w, w', s);
    case Arrive(_, _, _) =>
    case Client_(_, _) => GrantedKept(w, w', s);
    case Launch(_, i, pid, api) => NewbornKept(w, w', i, pid, api);
  }

  predicate Evolved(ds: map<Instance, Daemon>, ds': map<Instance, Daemon>) {
    forall i | i in ds :: i in ds' && Grows(ds[i], ds'[i])
  }

  lemma StepsEvolve(w: World, w': World, s: Step)
    requires Inv(w) && Enabled(w, s) && w' == Next(w, s)
    ensures Evolved(w.daemons, w'.daemons)
  {
    if s.Daemon_? {
      PerformKeepsDaemon(w.shared, w.daemons[s.i], s.i, s.act);
    }
  }

  /** A daemon whose token or process is new differs from all others in it. */
  lemma NewcomersAreDistinct(w: World, w': World, s: Step, i: Instance, j: Instance)
    requires Inv(w) && Enabled(w, s) && w' == Next(w, s) && i in w'.daemons && j in w.daemons && i != j
    requires w'.daemons[j] == w.daemons[j]
    ensures Distinct(w'.daemons[i], w'.daemons[j]) && Distinct(w'.daemons[j], w'.daemons[i])
  {
    if i in w.daemons {
      assert Distinct(w.daemons[i], w.daemons[j]);
      assert Distinct(w.daemons[j], w.daemons[i]);
      if s.Daemon_? && s.i == i {
        PerformKeepsDaemon(w.shared, w.daemons[i], i, s.act);
      }
    }
  }

  lemma DistinctKept(w: World, w': World, s: Step)
    requires Inv(w) && Enabled(w, s) && w' == Next(w, s)
    ensures DistinctInv(w')
  {
    forall i, j | i in w'.daemons && j in w'.daemons && i != j ensures Distinct(w'.daemons[i], w'.daemons[j]) {
      if j in w.daemons && w'.daemons[j] == w.daemons[j] {
        NewcomersAreDistinct(w, w', s, i, j);
      } else {
        NewcomersAreDistinct(w, w', s, j, i);
      }
    }
  }

  lemma FileKept(w: World, w': World, s: Step)
    requires Inv(w) && Enabled(w, s) && w' == Next(w, s)
    ensures FileInv(w')
  {
    StepsEvolve(w, w', s);
    if s.Daemon_? {
      PerformTouchesItsOwn(w.shared, w.daemons[s.i], s.i, s.act);
    }
  }

  lemma StageGrows(ds: map<Instance, Daemon>, ds': map<Instance, Daemon>, c: Client)
    requires Evolved(ds, ds') && StageOk(ds, c) && AttemptOk(ds, c)
    ensures StageOk(ds', c) && AttemptOk(ds', c)
  {}

  /** The stage a client moves to is right in the world it moved in. */
  lemma AdvanceOk(w: World, c: Client, go: ClientAct)
    requires Inv(w) && StageOk(w.daemons, c) && AttemptOk(w.daemons, c) && Advance(w, c, go).Some?
    ensures var after := c.(stage := Advance(w, c, go).value);
            StageOk(w.daemons, after) && AttemptOk(w.daemons, after)
  {
    if c.stage.Greeting? && go.Hello? && Advance(w, c, go).value.Done? {
      TokenNamesWriter(w, c.stage.info, c.stage.peer);
    }
  }

  lemma ClientKept(w: World, w': World, s: Step)
    requires Inv(w) && Enabled(w, s) && w' == Next(w, s)
    ensures ClientInv(w')
  {
    StepsEvolve(w, w', s);
    forall c | c in w'.clients ensures StageOk(w'.daemons, w'.clients[c]) && AttemptOk(w'.daemons, w'.clients[c]) {
      if s.Client_? && s.c == c {
        AdvanceOk(w, w.clients[c], s.go);
        StageGrows(w.daemons, w'.daemons, w'.clients[c]);
      } else if c in w.clients && w'.clients[c] == w.clients[c] {
        assert StageOk(w.daemons, w.clients[c]);
        StageGrows(w.daemons, w'.daemons, w'.clients[c]);
      }
    }
  }

  // ------------------------------------------------------------ every run

  lemma StepKept(w: World, s: Step)
    requires Inv(w) && Enabled(w, s)
    ensures Inv(Next(w, s))
  {
    var w' := Next(w, s);
    AgreeKept(w, w', s);
    DistinctKept(w, w', s);
    FileKept(w, w', s);
    ClientKept(w, w', s);
  }

  lemma {:induction false} InvHolds(w: World, steps: seq<Step>)
    requires Inv(w) && Runs(w, steps)
    ensures Inv(Run(w, steps))
    decreases |steps|
  {
    hide Inv, Enabled, Next;
    if steps != [] {
      StepKept(w, steps[0]);
      InvHolds(Next(w, steps[0]), steps[1..]);
    }
  }

  lemma {:induction false} EveryRunIsSound(steps: seq<Step>)
    requires Runs(EMPTY, steps)
    ensures Inv(Run(EMPTY, steps))
  {
    InvHolds(EMPTY, steps);
  }

  /** Daemon `i` is between taking and releasing the lock. */
  predicate HasLock(w: World, i: Instance) {
    i in w.daemons && HoldsLock(w.daemons[i].phase)
  }

  /** At most one daemon is between taking and releasing the lock, and only it listens. */
  lemma {:induction false} AtMostOneDaemon(steps: seq<Step>, i: Instance, j: Instance)
    requires Runs(EMPTY, steps)
    requires HasLock(Run(EMPTY, steps), i)
    requires HasLock(Run(EMPTY, steps), j) || Run(EMPTY, steps).shared.endpoint == Some(j)
    ensures i == j
  {
    EveryRunIsSound(steps);
    var w := Run(EMPTY, steps);
    assert Agrees(w.shared, w.daemons[i], i);
    assert j in w.daemons && Agrees(w.shared, w.daemons[j], j);
  }

  /** The lock is never left behind: whoever holds it is alive and on its way to release it. */
  lemma {:induction false} NoStaleLock(steps: seq<Step>)
    requires Runs(EMPTY, steps) && Run(EMPTY, steps).shared.lock.Some?
    ensures var w := Run(EMPTY, steps);
            w.shared.lock.value in w.daemons && HoldsLock(w.daemons[w.shared.lock.value].phase)
  {
    EveryRunIsSound(steps);
    var w := Run(EMPTY, steps);
    assert Agrees(w.shared, w.daemons[w.shared.lock.value], w.shared.lock.value);
  }

  /** A stopping daemon only ever removes the file it wrote, never a successor's. */
  lemma {:induction false} StoppingRemovesOwnFile(steps: seq<Step>, i: Instance)
    requires Runs(EMPTY, steps) && Enabled(Run(EMPTY, steps), Daemon_(i, RemoveFile))
    ensures var w := Run(EMPTY, steps);
            && i in w.daemons && w.daemons[i].token.Some?
            && w.shared.file == Some(InfoOf(w.daemons[i], i))
            && Next(w, Daemon_(i, RemoveFile)).shared.file == None
  {
    EveryRunIsSound(steps);
    var w := Run(EMPTY, steps);
    assert Agrees(w.shared, w.daemons[i], i);
  }

  /** Nobody but the lock holder writes or removes `daemon.json`. */
  lemma {:induction false} FileChangesOnlyUnderTheLock(steps: seq<Step>, s: Step)
    requires Runs(EMPTY, steps) && Enabled(Run(EMPTY, steps), s)
    requires Next(Run(EMPTY, steps), s).shared.file != Run(EMPTY, steps).shared.file
    ensures var w, w' := Run(EMPTY, steps), Next(Run(EMPTY, steps), s);
            && s.Daemon_? && w.shared.lock == Some(s.i)
            && ((s.act.Publish? && w'.shared.file.Some? && w'.shared.file.value.writer == s.i)
                || (s.act.RemoveFile? && w'.shared.file == None))
  {
    EveryRunIsSound(steps);
    var w := Run(EMPTY, steps);
    PerformTouchesItsOwn(w.shared, w.daemons[s.i], s.i, s.act);
  }

  /** Only the lock holder binds the endpoint or lets it go. */
  lemma {:induction false} EndpointChangesOnlyUnderTheLock(steps: seq<Step>, s: Step)
    requires Runs(EMPTY, steps) && Enabled(Run(EMPTY, steps), s)
    requires Next(Run(EMPTY, steps), s).shared.endpoint != Run(EMPTY, steps).shared.endpoint
    ensures var w, w' := Run(EMPTY, steps), Next(Run(EMPTY, steps), s);
            && s.Daemon_? && w.shared.lock == Some(s.i)
            && (w'.shared.endpoint == None || w'.shared.endpoint == Some(s.i))
  {
    EveryRunIsSound(steps);
    var w := Run(EMPTY, steps);
    PerformTouchesItsOwn(w.shared, w.daemons[s.i], s.i, s.act);
  }

  /** A serving daemon can be found: `daemon.json` is there and is its own. */
  lemma {:induction false} ServingIsDiscoverable(steps: seq<Step>, i: Instance)
    requires Runs(EMPTY, steps)
    requires i in Run(EMPTY, steps).daemons && OwnsFile(Run(EMPTY, steps).daemons[i].phase)
    ensures var w := Run(EMPTY, steps);
            w.daemons[i].token.Some? && w.shared.file == Some(InfoOf(w.daemons[i], i))
  {
    EveryRunIsSound(steps);
    assert Agrees(Run(EMPTY, steps).shared, Run(EMPTY, steps).daemons[i], i);
  }

  /**
   A successful `connect` reached the very daemon whose file was read, and both
   speak the client's API version.
   */
  lemma {:induction false} ConnectedToTheWriter(steps: seq<Step>, c: ClientId)
    requires Runs(EMPTY, steps) && c in Run(EMPTY, steps).clients && Run(EMPTY, steps).clients[c].stage.Done?
    ensures var w := Run(EMPTY, steps);
            var st := w.clients[c].stage;
            && st.peer in w.daemons
            && w.daemons[st.peer].token.Some?
            && st.info == InfoOf(w.daemons[st.peer], st.peer)
            && st.info.api == w.clients[c].api
  {
    EveryRunIsSound(steps);
    assert StageOk(Run(EMPTY, steps).daemons, Run(EMPTY, steps).clients[c]);
  }

  /**
   Between equal API versions a handshake succeeds exactly when the answering
   daemon wrote the file the client holds: a token never opens a successor.
   */
  lemma {:induction false} HandshakeMeansSameDaemon(steps: seq<Step>, c: ClientId)
    requires Runs(EMPTY, steps) && Enabled(Run(EMPTY, steps), Client_(c, Hello))
    ensures var w, w' := Run(EMPTY, steps), Next(Run(EMPTY, steps), Client_(c, Hello));
            && w.clients[c].stage.Greeting? && c in w'.clients
            && var st := w.clients[c].stage;
               st.peer in w.daemons
               && (w.daemons[st.peer].api == w.clients[c].api ==>
                     (w'.clients[c].stage.Done? <==> st.peer == st.info.writer))
  {
    EveryRunIsSound(steps);
    var w := Run(EMPTY, steps);
    var st := w.clients[c].stage;
    assert StageOk(w.daemons, w.clients[c]);
    if w.daemons[st.peer].token == Some(st.info.token) {
      TokenNamesWriter(w, st.info, st.peer);
    }
  }

  /**
   A daemon stopped by a replacing client was named by the file that client
   read and is strictly older than it, whatever raced in between.
   */
  lemma {:induction false} OnlyOlderDaemonsAreReplaced(steps: seq<Step>, i: Instance)
    requires Runs(EMPTY, steps) && i in Run(EMPTY, steps).daemons
    requires Run(EMPTY, steps).daemons[i].stop.Some? && Run(EMPTY, steps).daemons[i].stop.value.Replaced?
    ensures var d := Run(EMPTY, steps).daemons[i];
            d.token == Some(d.stop.value.token) && d.api < d.stop.value.clientApi
  {
    EveryRunIsSound(steps);
    assert DaemonOk(Run(EMPTY, steps).daemons[i]);
  }
}

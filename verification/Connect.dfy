/**
 What `connect` does in the system of `SingleDaemon`: when it fails and with
 which error, what it does instead, and that it gets through: to a daemon that
 serves, past one that is too old, and to one it has to start.
 */
module Connect {
  import opened Common
  import opened SingleDaemon

  // ------------------------------------------------------------ every step of every run

  /** A client that may not spawn never starts, awaits or replaces a daemon. */
  lemma {:induction false} WithoutSpawningNothingIsStarted(steps: seq<Step>, c: ClientId)
    requires Runs(EMPTY, steps) && c in Run(EMPTY, steps).clients && !Run(EMPTY, steps).clients[c].spawnIfMissing
    ensures var stage := Run(EMPTY, steps).clients[c].stage;
            && !stage.Launching? && !stage.Polling?
            && !stage.ReplaceDialing? && !stage.ReplaceAsking? && !stage.ReplaceWaiting?
            && (stage.Dialing? || stage.Greeting? ==> stage.poll.None?)
            && (stage.Done? ==> !stage.spawned)
            && (stage.Failed? ==> stage.why in {NotRunning, Incompatible, Refused})
  {
    EveryRunIsSound(steps);
    var w := Run(EMPTY, steps);
    assert AttemptOk(w.daemons, w.clients[c]);
  }

  /** A client that started a daemon never talks to the one it knows to be gone. */
  lemma {:induction false} StaleIsNotDialed(steps: seq<Step>, c: ClientId)
    requires Runs(EMPTY, steps) && c in Run(EMPTY, steps).clients
    ensures var stage := Run(EMPTY, steps).clients[c].stage;
            (stage.Dialing? || stage.Greeting?) && stage.poll.Some? ==>
              stage.poll.value.child in Run(EMPTY, steps).daemons && stage.poll.value.stale != Some(stage.info.pid)
  {
    EveryRunIsSound(steps);
    var w := Run(EMPTY, steps);
    assert AttemptOk(w.daemons, w.clients[c]);
  }

  /** The first attempt, before this call started a daemon. */
  predicate FirstAttempt(stage: Stage) {
    (stage.Dialing? || stage.Greeting?) && stage.poll.None?
  }

  /** The step of a client in a run, and where it leads. */
  ghost predicate Moves(steps: seq<Step>, c: ClientId, go: ClientAct, w: World, client: Client, after: Stage) {
    && Runs(EMPTY, steps) && w == Run(EMPTY, steps) && Enabled(w, Client_(c, go))
    && client == w.clients[c]
    && c in Next(w, Client_(c, go)).clients && Next(w, Client_(c, go)).clients[c] == client.(stage := after)
  }

  /** Exactly when `connect` fails, and with which error. */
  lemma {:induction false} FailsExactlyWhen(
      steps: seq<Step>, c: ClientId, go: ClientAct, w: World, client: Client, after: Stage)
    requires Moves(steps, c, go, w, client, after)
    ensures after == Failed(NotRunning) <==>
            !client.spawnIfMissing && ((go.ReadFile? && w.shared.file.None?) || go.Unreachable?)
    ensures go.Hello? ==> client.stage.Greeting? && client.stage.peer in w.daemons
    ensures after == Failed(Incompatible) <==>
            go.Hello? && FirstAttempt(client.stage) && w.daemons[client.stage.peer].api != client.api
            && (w.daemons[client.stage.peer].api > client.api || !client.spawnIfMissing)
    ensures after == Failed(Refused) <==>
            go.Hello? && if w.daemons[client.stage.peer].api == client.api then client.stage.peer != client.stage.info.writer
                         else !FirstAttempt(client.stage)
    ensures after == Failed(CannotStart) <==> go.CannotLaunch?
    ensures go.ChildEnded? ==> client.stage.Polling? && client.stage.watch.child in w.daemons
    ensures after == Failed(ChildExited) <==>
            go.ChildEnded? && w.daemons[client.stage.watch.child].phase != Exited(3)
    ensures after == Failed(TimedOut) <==> go.TimeOut?
  {
    EveryRunIsSound(steps);
    assert StageOk(w.daemons, client) && AttemptOk(w.daemons, client);
    if go.Hello? {
      var st := client.stage;
      if w.daemons[st.peer].token == Some(st.info.token) {
        TokenNamesWriter(w, st.info, st.peer);
      }
    }
  }

  /** And where it goes otherwise. */
  lemma {:induction false} GoesOnWhere(
      steps: seq<Step>, c: ClientId, go: ClientAct, w: World, client: Client, after: Stage)
    requires Moves(steps, c, go, w, client, after)
    ensures go.ReadFile? && w.shared.file.Some? ==> after == Dialing(w.shared.file.value, None)
    ensures go.ReadFile? && w.shared.file.None? && client.spawnIfMissing ==> after == Launching(None)
    ensures go.Unreachable? && FirstAttempt(client.stage) && client.spawnIfMissing ==>
              after == Launching(Some(client.stage.info.pid))
    ensures go.Unreachable? && !FirstAttempt(client.stage) ==>
              client.stage.poll.Some? && after == Polling(client.stage.poll.value)
    ensures go.Hello? && FirstAttempt(client.stage) && client.spawnIfMissing
            && client.stage.Greeting? && client.stage.peer in w.daemons && w.daemons[client.stage.peer].api < client.api ==>
              after == ReplaceDialing(client.stage.info, client.stage.peer)
    ensures go.AskShutdown? || go.GiveUpAsking? ==> after.ReplaceWaiting?
    ensures go.OldIsGone? ==> client.stage.ReplaceWaiting? && after == Launching(Some(client.stage.info.pid))
    ensures go.ChildEnded? && after.Polling? ==> client.stage.Polling? && after == Polling(Poll(client.stage.watch.child, None))
    ensures go.PollFile? ==>
              && client.stage.Polling? && w.shared.file.Some?
              && client.stage.watch.stale != Some(w.shared.file.value.pid)
              && after == Dialing(w.shared.file.value, Some(client.stage.watch))
  {}

  /** What a daemon's exit code says: lost the lock and never listened, failed before it could be found, or was asked to stop. */
  lemma {:induction false} ExitCodesTell(steps: seq<Step>, i: Instance)
    requires Runs(EMPTY, steps) && i in Run(EMPTY, steps).daemons && Run(EMPTY, steps).daemons[i].phase.Exited?
    ensures var d := Run(EMPTY, steps).daemons[i];
            && d.phase.code in {0, 1, 3}
            && (d.phase.code == 0 ==> d.published && d.stop.Some?)
            && (d.phase.code == 1 ==> !d.published)
            && (d.phase.code == 3 ==> !d.published && d.token.None?)
  {
    CodesHold(EMPTY, steps);
    EveryRunIsSound(steps);
    assert DaemonOk(Run(EMPTY, steps).daemons[i]);
  }

  predicate CodesOk(w: World) {
    forall i | i in w.daemons && w.daemons[i].phase.Exited? :: w.daemons[i].phase.code in {0, 1, 3}
  }

  lemma {:induction false} CodesHold(w: World, steps: seq<Step>)
    requires Runs(w, steps) && CodesOk(w)
    ensures CodesOk(Run(w, steps))
    decreases |steps|
  {
    if steps != [] {
      CodesKept(w, steps[0]);
      CodesHold(Next(w, steps[0]), steps[1..]);
    }
  }

  lemma CodesKept(w: World, s: Step)
    requires Enabled(w, s) && CodesOk(w)
    ensures CodesOk(Next(w, s))
  {}

  /** A daemon gives up with that code exactly when somebody else holds the lock. */
  lemma {:induction false} LosesToTheHolder(steps: seq<Step>, i: Instance)
    requires Runs(EMPTY, steps) && Enabled(Run(EMPTY, steps), Daemon_(i, Acquire))
    ensures var w, w' := Run(EMPTY, steps), Next(Run(EMPTY, steps), Daemon_(i, Acquire));
            if w.shared.lock.None? then w'.shared.lock == Some(i) && HasLock(w', i)
            else w.shared.lock != Some(i) && HasLock(w, w.shared.lock.value)
                 && w'.daemons[i].phase == Exited(3) && w'.shared == w.shared
  {
    EveryRunIsSound(steps);
    var w := Run(EMPTY, steps);
    assert Agrees(w.shared, w.daemons[i], i);
    if w.shared.lock.Some? {
      NoStaleLock(steps);
    }
  }

  // ------------------------------------------------------------ getting through

  /** Some steps from one world to another. */
  ghost predicate Leads(w: World, steps: seq<Step>, w': World) {
    Runs(w, steps) && Run(w, steps) == w'
  }

  lemma NoStep(w: World)
    ensures Leads(w, [], w)
  {}

  lemma {:induction false} OneMoreStep(w: World, steps: seq<Step>, w': World, s: Step)
    requires Leads(w, steps, w') && Enabled(w', s)
    ensures Leads(w, steps + [s], Next(w', s))
    decreases |steps|
  {
    if steps == [] {
      assert [] + [s] == [s] && [s][1..] == [];
    } else {
      assert (steps + [s])[0] == steps[0] && (steps + [s])[1..] == steps[1..] + [s];
      OneMoreStep(Next(w, steps[0]), steps[1..], w', s);
    }
  }

  lemma {:induction false} MoreSteps(w: World, a: seq<Step>, w': World, b: seq<Step>, w'': World)
    requires Leads(w, a, w') && Leads(w', b, w'')
    ensures Leads(w, a + b, w'')
    decreases |a|
  {
    if a == [] {
      assert a + b == b;
    } else {
      assert (a + b)[0] == a[0] && (a + b)[1..] == a[1..] + b;
      MoreSteps(Next(w, a[0]), a[1..], w', b, w'');
    }
  }

  /** A client's own step, when it only changes its stage. */
  lemma StageStep(w: World, c: ClientId, go: ClientAct, stage: Stage)
    requires c in w.clients && Advance(w, w.clients[c], go) == Some(stage) && Request(w, w.clients[c], go).None?
    ensures Enabled(w, Client_(c, go))
    ensures Next(w, Client_(c, go)) == w.(clients := w.clients[c := w.clients[c].(stage := stage)])
  {}

  function At(w: World, c: ClientId, stage: Stage): World
    requires c in w.clients
  {
    w.(clients := w.clients[c := w.clients[c].(stage := stage)])
  }

  /** From the file of a serving daemon of its own version, a client gets its connection. */
  lemma {:induction false} DialedIsReached(w: World, c: ClientId, i: Instance, poll: Option<Poll>)
    requires Inv(w) && c in w.clients && i in w.daemons && w.daemons[i].phase.Serving?
    requires w.daemons[i].token.Some? && w.clients[c].stage == Dialing(InfoOf(w.daemons[i], i), poll)
    requires w.daemons[i].api == w.clients[c].api
    ensures Leads(w, [Client_(c, Dial), Client_(c, Hello)], At(w, c, Done(InfoOf(w.daemons[i], i), i, poll.Some?)))
  {
    var info := InfoOf(w.daemons[i], i);
    assert Agrees(w.shared, w.daemons[i], i);
    StageStep(w, c, Dial, Greeting(info, i, poll));
    var w1 := At(w, c, Greeting(info, i, poll));
    StageStep(w1, c, Hello, Done(info, i, poll.Some?));
    NoStep(w);
    OneMoreStep(w, [], w, Client_(c, Dial));
    assert [] + [Client_(c, Dial)] == [Client_(c, Dial)];
    OneMoreStep(w, [Client_(c, Dial)], w1, Client_(c, Hello));
    assert [Client_(c, Dial)] + [Client_(c, Hello)] == [Client_(c, Dial), Client_(c, Hello)];
    assert Next(w1, Client_(c, Hello)) == At(w, c, Done(info, i, poll.Some?));
  }

  /** A client that begins while a daemon of its version serves reads its file, dials it and is connected. */
  lemma {:induction false} ServingIsReached(w: World, c: ClientId, i: Instance)
    requires Inv(w) && c in w.clients && w.clients[c].stage.Begin?
    requires i in w.daemons && w.daemons[i].phase.Serving? && w.daemons[i].api == w.clients[c].api
    ensures w.daemons[i].token.Some?
    ensures Leads(w, [Client_(c, ReadFile)] + [Client_(c, Dial), Client_(c, Hello)],
                  At(w, c, Done(InfoOf(w.daemons[i], i), i, false)))
  {
    assert Agrees(w.shared, w.daemons[i], i);
    var info := InfoOf(w.daemons[i], i);
    StageStep(w, c, ReadFile, Dialing(info, None));
    NoStep(w);
    OneMoreStep(w, [], w, Client_(c, ReadFile));
    assert [] + [Client_(c, ReadFile)] == [Client_(c, ReadFile)];
    var w1 := At(w, c, Dialing(info, None));
    StepKept(w, Client_(c, ReadFile));
    DialedIsReached(w1, c, i, None);
    MoreSteps(w, [Client_(c, ReadFile)], w1, [Client_(c, Dial), Client_(c, Hello)], At(w1, c, Done(info, i, false)));
    assert At(w1, c, Done(info, i, false)) == At(w, c, Done(info, i, false));
  }

  function With(w: World, i: Instance, sh: Shared, d: Daemon): World {
    w.(shared := sh, daemons := w.daemons[i := d])
  }

  lemma ActStep(w: World, i: Instance, sh: Shared, d: Daemon, act: Act, sh': Shared, d': Daemon)
    requires Perform(sh, d, i, act) == Some(Outcome(sh', d')) && FreshToken(With(w, i, sh, d), act)
    ensures Enabled(With(w, i, sh, d), Daemon_(i, act))
    ensures Next(With(w, i, sh, d), Daemon_(i, act)) == With(w, i, sh', d')
  {
    assert w.daemons[i := d][i := d'] == w.daemons[i := d'];
  }

  /** One more act of daemon `i` at the end of some steps. */
  lemma ActLeads(
      start: World, steps: seq<Step>, w: World, i: Instance, sh: Shared, d: Daemon, act: Act, sh': Shared, d': Daemon)
    requires Leads(start, steps, With(w, i, sh, d))
    requires Perform(sh, d, i, act) == Some(Outcome(sh', d')) && FreshToken(With(w, i, sh, d), act)
    ensures Leads(start, steps + [Daemon_(i, act)], With(w, i, sh', d'))
  {
    hide Leads, Enabled, Next;
    ActStep(w, i, sh, d, act, sh', d');
    OneMoreStep(start, steps, With(w, i, sh, d), Daemon_(i, act));
  }

  function StartUp(i: Instance, token: nat): seq<Step> {
    [] + [Daemon_(i, Acquire)] + [Daemon_(i, OpenStore)] + [Daemon_(i, Bind(token))] + [Daemon_(i, Act.Stage)]
    + [Daemon_(i, Publish)]
  }

  predicate NewToken(w: World, token: nat) {
    forall j | j in w.daemons :: w.daemons[j].token != Some(token)
  }

  /** A daemon that finds the lock free comes to serve under its own file. */
  lemma {:induction false} StartsServing(w: World, i: Instance, token: nat)
    requires i in w.daemons && w.daemons[i].phase.Starting? && w.shared.lock.None? && NewToken(w, token)
    requires w.daemons[i].token.None?
    ensures var d := w.daemons[i];
            Leads(w, StartUp(i, token),
              With(w, i, Shared(Some(i), Some(i), Some(Info(d.pid, token, d.api, i)), w.shared.tmps - {d.pid}),
                   d.(phase := Serving, token := Some(token), published := true)))
  {
    hide Leads;
    var d, sh := w.daemons[i], w.shared;
    var info := Info(d.pid, token, d.api, i);
    var d1, sh1 := d.(phase := Locked), sh.(lock := Some(i));
    var d2 := d.(phase := StoreOpen);
    var d3, sh3 := d.(phase := Bound, token := Some(token)), sh1.(endpoint := Some(i));
    var d4, sh4 := d3.(phase := Staged), sh3.(tmps := sh.tmps[d.pid := info]);
    var d5, sh5 := d3.(phase := Serving, published := true), Shared(Some(i), Some(i), Some(info), sh.tmps - {d.pid});
    NoStep(w);
    assert With(w, i, sh, d) == w;
    ActLeads(w, [], w, i, sh, d, Acquire, sh1, d1);
    ActLeads(w, [] + [Daemon_(i, Acquire)], w, i, sh1, d1, OpenStore, sh1, d2);
    var three := [] + [Daemon_(i, Acquire)] + [Daemon_(i, OpenStore)];
    ActLeads(w, three, w, i, sh1, d2, Bind(token), sh3, d3);
    ActLeads(w, three + [Daemon_(i, Bind(token))], w, i, sh3, d3, Act.Stage, sh4, d4);
    assert sh4.tmps - {d.pid} == sh.tmps - {d.pid};
    ActLeads(w, three + [Daemon_(i, Bind(token))] + [Daemon_(i, Act.Stage)], w, i, sh4, d4, Publish, sh5, d5);
  }

  // ------------------------------------------------------------ a daemon of one's own

  /** The steps of a client that may spawn and of the daemon `i` it starts. */
  function OwnDaemon(c: ClientId, i: Instance, pid: nat, api: nat, token: nat): seq<Step> {
    [] + [Launch(c, i, pid, api)] + StartUp(i, token) + [Client_(c, PollFile)] + [Client_(c, Dial), Client_(c, Hello)]
  }

  /** A client about to launch, with nobody holding the lock, ends connected to the daemon it starts. */
  lemma {:induction false} LaunchingGetsThrough(w: World, c: ClientId, i: Instance, pid: nat, token: nat)
    requires Inv(w) && c in w.clients && w.clients[c].stage.Launching? && w.shared.lock.None?
    requires FreshProcess(w, i, pid) && NewToken(w, token) && w.clients[c].stage.stale != Some(pid)
    ensures var api := w.clients[c].api;
            var steps := OwnDaemon(c, i, pid, api, token);
            && Runs(w, steps) && c in Run(w, steps).clients
            && Run(w, steps).clients[c].stage == Done(Info(pid, token, api, i), i, true)
            && Run(w, steps).shared.lock == Some(i)
  {
    hide Inv, Leads, FreshProcess, NewToken;
    var api, watch := w.clients[c].api, Poll(i, w.clients[c].stage.stale);
    var info := Info(pid, token, api, i);
    var w1 := Next(w, Launch(c, i, pid, api));
    NoStep(w);
    OneMoreStep(w, [], w, Launch(c, i, pid, api));
    StepKept(w, Launch(c, i, pid, api));
    NewbornIsNew(w, c, i, pid, token);
    StartsServing(w1, i, token);
    var d := w1.daemons[i].(phase := Serving, token := Some(token), published := true);
    var w2 := With(w1, i, Shared(Some(i), Some(i), Some(info), w1.shared.tmps - {pid}), d);
    MoreSteps(w, [] + [Launch(c, i, pid, api)], w1, StartUp(i, token), w2);
    LeadsKeepsInv(w1, StartUp(i, token), w2);
    StageStep(w2, c, PollFile, Dialing(info, Some(watch)));
    var w3 := At(w2, c, Dialing(info, Some(watch)));
    StepKept(w2, Client_(c, PollFile));
    OneMoreStep(w, [] + [Launch(c, i, pid, api)] + StartUp(i, token), w2, Client_(c, PollFile));
    DialedIsReached(w3, c, i, Some(watch));
    var w4 := At(w3, c, Done(info, i, true));
    MoreSteps(w, [] + [Launch(c, i, pid, api)] + StartUp(i, token) + [Client_(c, PollFile)], w3,
              [Client_(c, Dial), Client_(c, Hello)], w4);
    LedTo(w, OwnDaemon(c, i, pid, api, token), w4);
  }

  lemma LedTo(w: World, steps: seq<Step>, w': World)
    requires Leads(w, steps, w')
    ensures Runs(w, steps) && Run(w, steps) == w'
  {}

  lemma LeadsKeepsInv(w: World, steps: seq<Step>, w': World)
    requires Inv(w) && Leads(w, steps, w')
    ensures Inv(w')
  {
    InvHolds(w, steps);
  }

  lemma NewbornIsNew(w: World, c: ClientId, i: Instance, pid: nat, token: nat)
    requires c in w.clients && w.clients[c].stage.Launching? && FreshProcess(w, i, pid) && NewToken(w, token)
    ensures var w' := Next(w, Launch(c, i, pid, w.clients[c].api));
            && NewToken(w', token) && i in w'.daemons && w'.daemons[i] == Newborn(pid, w.clients[c].api)
            && w'.shared == w.shared
            && c in w'.clients
            && w'.clients[c] == w.clients[c].(stage := Polling(Poll(i, w.clients[c].stage.stale)))
  {}

  /** In an empty data directory a client that may spawn ends connected to the daemon it starts. */
  lemma {:induction false} FromNothing(c: ClientId, api: nat, i: Instance, pid: nat, token: nat)
    ensures var steps := [Arrive(c, api, true), Client_(c, ReadFile)] + OwnDaemon(c, i, pid, api, token);
            && Runs(EMPTY, steps) && c in Run(EMPTY, steps).clients
            && Run(EMPTY, steps).clients[c].stage == Done(Info(pid, token, api, i), i, true)
  {
    var w1 := Next(EMPTY, Arrive(c, api, true));
    StageStep(w1, c, ReadFile, Launching(None));
    var w2 := At(w1, c, Launching(None));
    NoStep(EMPTY);
    OneMoreStep(EMPTY, [], EMPTY, Arrive(c, api, true));
    OneMoreStep(EMPTY, [] + [Arrive(c, api, true)], w1, Client_(c, ReadFile));
    assert [] + [Arrive(c, api, true)] + [Client_(c, ReadFile)] == [Arrive(c, api, true), Client_(c, ReadFile)];
    EveryRunIsSound([]);
    LeadsKeepsInv(EMPTY, [Arrive(c, api, true), Client_(c, ReadFile)], w2);
    LaunchingGetsThrough(w2, c, i, pid, token);
    var own := OwnDaemon(c, i, pid, api, token);
    MoreSteps(EMPTY, [Arrive(c, api, true), Client_(c, ReadFile)], w2, own, Run(w2, own));
  }

  // ------------------------------------------------------------ past an older daemon

  /** The client's steps up to the request, and the old daemon's way out. */
  function Replacing(c: ClientId, i: Instance): seq<Step> {
    [] + [Client_(c, ReadFile)] + [Client_(c, Dial)] + [Client_(c, Hello)] + [Client_(c, ReplaceDial)]
    + [Client_(c, AskShutdown)] + [Daemon_(i, StopAccepting)] + [Daemon_(i, RemoveFile)] + [Daemon_(i, Release)]
    + [Client_(c, OldIsGone)]
  }

  /** The daemon once it has stopped on a client's request. */
  function Stopped(d: Daemon, clientApi: nat): Daemon
    requires d.token.Some?
  {
    d.(stop := Some(Replaced(d.token.value, clientApi)), phase := Exited(0))
  }

  lemma ClientLeads(start: World, steps: seq<Step>, w: World, c: ClientId, stage: Stage, go: ClientAct, after: Stage)
    requires c in w.clients && Leads(start, steps, At(w, c, stage))
    requires Advance(At(w, c, stage), At(w, c, stage).clients[c], go) == Some(after)
    requires Request(At(w, c, stage), At(w, c, stage).clients[c], go).None?
    ensures Leads(start, steps + [Client_(c, go)], At(w, c, after))
  {
    hide Leads, Advance, Request;
    StageStep(At(w, c, stage), c, go, after);
    OneMoreStep(start, steps, At(w, c, stage), Client_(c, go));
    assert At(At(w, c, stage), c, after) == At(w, c, after);
  }

  /** The honoured request: the daemon's stop reason and the client's stage. */
  lemma {:induction false} AskedToStop(w: World, c: ClientId, i: Instance)
    requires Inv(w) && c in w.clients && w.clients[c].stage.Begin? && w.clients[c].spawnIfMissing
    requires i in w.daemons && w.daemons[i].phase.Serving? && w.daemons[i].stop.None?
    requires w.daemons[i].api < w.clients[c].api
    ensures w.daemons[i].token.Some?
    ensures var d := w.daemons[i];
            Leads(w,
              [] + [Client_(c, ReadFile)] + [Client_(c, Dial)] + [Client_(c, Hello)] + [Client_(c, ReplaceDial)]
              + [Client_(c, AskShutdown)],
              With(At(w, c, ReplaceWaiting(InfoOf(d, i))), i, w.shared,
                   d.(stop := Some(Replaced(d.token.value, w.clients[c].api)))))
  {
    assert Agrees(w.shared, w.daemons[i], i) && DaemonOk(w.daemons[i]);
    var info := InfoOf(w.daemons[i], i);
    hide Leads, Inv, Agrees;
    NoStep(w);
    assert At(w, c, Begin) == w;
    ClientLeads(w, [], w, c, Begin, ReadFile, Dialing(info, None));
    ClientLeads(w, [] + [Client_(c, ReadFile)], w, c, Dialing(info, None), Dial, Greeting(info, i, None));
    var three := [] + [Client_(c, ReadFile)] + [Client_(c, Dial)];
    ClientLeads(w, three, w, c, Greeting(info, i, None), Hello, ReplaceDialing(info, i));
    ClientLeads(w, three + [Client_(c, Hello)], w, c, ReplaceDialing(info, i), ReplaceDial, ReplaceAsking(info, i, i));
    var w4 := At(w, c, ReplaceAsking(info, i, i));
    OneMoreStep(w, three + [Client_(c, Hello)] + [Client_(c, ReplaceDial)], w4, Client_(c, AskShutdown));
    AskStep(w, c, i, info);
  }

  lemma AskStep(w: World, c: ClientId, i: Instance, info: Info)
    requires c in w.clients && i in w.daemons && w.daemons[i].phase.Serving? && w.daemons[i].stop.None?
    requires w.daemons[i].token == Some(info.token)
    ensures Enabled(At(w, c, ReplaceAsking(info, i, i)), Client_(c, AskShutdown))
    ensures Next(At(w, c, ReplaceAsking(info, i, i)), Client_(c, AskShutdown)) ==
            With(At(w, c, ReplaceWaiting(info)), i, w.shared,
                 w.daemons[i].(stop := Some(Replaced(info.token, w.clients[c].api))))
  {}

  /** An older daemon is asked, stops, and leaves lock, endpoint and file behind it free. */
  lemma {:induction false} OlderIsReplaced(w: World, c: ClientId, i: Instance)
    requires Inv(w) && c in w.clients && w.clients[c].stage.Begin? && w.clients[c].spawnIfMissing
    requires i in w.daemons && w.daemons[i].phase.Serving? && w.daemons[i].stop.None?
    requires w.daemons[i].api < w.clients[c].api
    ensures w.daemons[i].token.Some?
    ensures var d := w.daemons[i];
            Leads(w, Replacing(c, i),
              With(At(w, c, Launching(Some(d.pid))), i, Shared(None, None, None, w.shared.tmps), Stopped(d, w.clients[c].api)))
  {
    AskedToStop(w, c, i);
    hide Leads, Inv;
    var d, sh := w.daemons[i], w.shared;
    var info := InfoOf(d, i);
    var waiting := At(w, c, ReplaceWaiting(info));
    var asked := d.(stop := Some(Replaced(d.token.value, w.clients[c].api)));
    var five := [] + [Client_(c, ReadFile)] + [Client_(c, Dial)] + [Client_(c, Hello)] + [Client_(c, ReplaceDial)]
                + [Client_(c, AskShutdown)];
    ActLeads(w, five, waiting, i, sh, asked, StopAccepting, sh.(endpoint := None), asked.(phase := Draining));
    var six := five + [Daemon_(i, StopAccepting)];
    var sh7 := sh.(endpoint := None, file := None);
    ActLeads(w, six, waiting, i, sh.(endpoint := None), asked.(phase := Draining), RemoveFile, sh7, asked.(phase := Removed));
    ActLeads(w, six + [Daemon_(i, RemoveFile)], waiting, i, sh7, asked.(phase := Removed), Release,
             sh7.(lock := None), asked.(phase := Exited(0)));
    var w8 := With(w, i, Shared(None, None, None, sh.tmps), Stopped(d, w.clients[c].api));
    assert With(waiting, i, sh7.(lock := None), asked.(phase := Exited(0))) == At(w8, c, ReplaceWaiting(info));
    ClientLeads(w, six + [Daemon_(i, RemoveFile)] + [Daemon_(i, Release)], w8, c, ReplaceWaiting(info), OldIsGone,
                Launching(Some(info.pid)));
    assert At(w8, c, Launching(Some(info.pid)))
      == With(At(w, c, Launching(Some(d.pid))), i, Shared(None, None, None, sh.tmps), Stopped(d, w.clients[c].api));
  }

  /** A client that meets an older daemon replaces it and ends connected to one of its own version. */
  lemma {:induction false} UpgradeGoesThrough(w: World, c: ClientId, i: Instance, j: Instance, pid: nat, token: nat)
    requires Inv(w) && c in w.clients && w.clients[c].stage.Begin? && w.clients[c].spawnIfMissing
    requires i in w.daemons && w.daemons[i].phase.Serving? && w.daemons[i].stop.None?
    requires w.daemons[i].api < w.clients[c].api
    requires FreshProcess(w, j, pid) && NewToken(w, token)
    ensures var api := w.clients[c].api;
            var steps := Replacing(c, i) + OwnDaemon(c, j, pid, api, token);
            && Runs(w, steps) && c in Run(w, steps).clients
            && Run(w, steps).clients[c].stage == Done(Info(pid, token, api, j), j, true)
            && Run(w, steps).shared.lock == Some(j)
  {
    OlderIsReplaced(w, c, i);
    var d := w.daemons[i];
    var w' := With(At(w, c, Launching(Some(d.pid))), i, Shared(None, None, None, w.shared.tmps), Stopped(d, w.clients[c].api));
    hide Leads;
    LeadsKeepsInv(w, Replacing(c, i), w');
    hide Inv;
    LaunchingGetsThrough(w', c, j, pid, token);
    var own := OwnDaemon(c, j, pid, w.clients[c].api, token);
    Follows(w', own);
    MoreSteps(w, Replacing(c, i), w', own, Run(w', own));
    LedTo(w, Replacing(c, i) + own, Run(w', own));
  }

  lemma Follows(w: World, steps: seq<Step>)
    requires Runs(w, steps)
    ensures Leads(w, steps, Run(w, steps))
  {}
}

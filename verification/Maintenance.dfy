/**
 Preparing, cancelling and committing an update: the native client and the worker host
 agree over two FIFO pipes on who holds the maintenance gate.

 Steps are what happens between two awaits.
 */
module Maintenance {
  import opened Options

  type Request = nat

  datatype Command = Prepare(request: Request) | Cancel(request: Request) | Commit(request: Request)

  datatype State = Waiting | Ready | Cancelled | Failed | Committed

  datatype Receipt = Receipt(request: Request, state: State)

  // ---- The host --------------------------------------------------------------

  /** The preparation task: waiting for the gate, holding it, or over. */
  datatype Task = NoTask | Acquiring | Holding | Over

  /** `Closed` means that the worker and its resources are gone, `Gone` that the process is. */
  datatype Phase = Serving | Exiting | Closed | Gone

  datatype Host = Host(request: Option<Request>, state: State, task: Task, phase: Phase)

  const NewHost: Host := Host(None, Cancelled, NoTask, Serving)

  predicate Alive(task: Task) { task.Acquiring? || task.Holding? }

  /** The host's answer to one command. */
  function Receive(h: Host, command: Command): (Host, seq<Receipt>) {
    var r := command.request;
    match command
    case Prepare(_) =>
      if h.request == Some(r) then (h, if h.state.Waiting? then [] else [Receipt(r, h.state)])
      else if Alive(h.task) then (h, [Receipt(r, Failed)])
      else (h.(request := Some(r), state := Waiting, task := Acquiring), [])
    case Cancel(_) =>
      if h.request != Some(r) then (h, [Receipt(r, Failed)])
      else if h.state.Committed? then (h, [Receipt(r, Committed)])
      else (h.(task := NoTask, state := Cancelled), [Receipt(r, Cancelled)])
    case Commit(_) =>
      if h.request != Some(r) || !h.state.Ready? then (h, [Receipt(r, Failed)])
      else (h.(state := Committed, phase := Exiting), [Receipt(r, Committed)])
  }

  /** The waiting task got the gate, or could not get it. */
  function Settle(h: Host, acquired: bool): (Host, seq<Receipt>) {
    if !h.task.Acquiring? || h.request.None? || h.phase.Gone? then (h, [])
    else if acquired then (h.(task := Holding, state := Ready), [Receipt(h.request.value, Ready)])
    else (h.(task := Over, state := Failed), [Receipt(h.request.value, Failed)])
  }

  // ---- The client ------------------------------------------------------------

  datatype Step = Asked | Prepared | Cancelling | Committing

  datatype Client = Free | Busy(request: Request, step: Step)

  /** The client's reaction to a receipt, and whether it lets `commitUpdatePreparation` go on. */
  function React(c: Client, receipt: Receipt): (Client, bool) {
    if c.Free? || receipt.request != c.request then (c, false)
    else match receipt.state
      case Ready => (if c.step.Asked? then c.(step := Prepared) else c, false)
      case Cancelled => (Free, false)
      case Failed => (Free, false)
      case Committed => (c, c.step.Committing?)
      case Waiting => (c, false)
  }

  // ---- Both together ---------------------------------------------------------

  /**
   `commits` are the requests that the host committed while it held the gate, `granted` those
   whose commit returned normally to the client.
   */
  datatype World = World(client: Client, host: Host, toHost: seq<Command>, toClient: seq<Receipt>,
                         used: set<Request>, commits: set<Request>, granted: set<Request>)

  const Start: World := World(Free, NewHost, [], [], {}, {}, {})

  datatype Action =
    | ClientPrepare(request: Request) | ClientCancel | ClientCommit | ClientReceive
    | HostReceive | HostSettle(acquired: bool) | HostStop | HostClose | HostRelease | HostDie
    | ProcessExit

  predicate GateHeld(h: Host) { h.task.Holding? }

  predicate Enabled(w: World, action: Action) {
    match action
    case ClientPrepare(r) => w.client.Free? && r !in w.used
    case ClientCancel => w.client.Busy? && (w.client.step.Asked? || w.client.step.Prepared?)
    case ClientCommit => w.client.Busy? && w.client.step.Prepared?
    case ClientReceive => w.toClient != []
    case HostReceive => w.toHost != [] && w.host.phase.Serving?
    case HostSettle(_) => w.host.task.Acquiring? && !w.host.phase.Gone?
    case HostStop => w.host.phase.Serving?
    case HostClose => w.host.phase.Exiting?
    case HostRelease => w.host.phase.Closed?
    case HostDie => !w.host.phase.Gone?
    case ProcessExit => w.host.phase.Gone? && w.toClient == []
  }

  function Act(w: World, action: Action): World
    requires Enabled(w, action)
  {
    match action
    case ClientPrepare(r) =>
      w.(client := Busy(r, Asked), toHost := w.toHost + [Prepare(r)], used := w.used + {r})
    case ClientCancel =>
      w.(client := w.client.(step := Cancelling), toHost := w.toHost + [Cancel(w.client.request)])
    case ClientCommit =>
      w.(client := w.client.(step := Committing), toHost := w.toHost + [Commit(w.client.request)])
    case ClientReceive =>
      var (next, goes) := React(w.client, w.toClient[0]);
      w.(client := next, toClient := w.toClient[1..],
         granted := if goes then w.granted + {w.toClient[0].request} else w.granted)
    case HostReceive =>
      var (next, receipts) := Receive(w.host, w.toHost[0]);
      w.(host := next, toHost := w.toHost[1..], toClient := w.toClient + receipts,
         commits := if next.state.Committed? && GateHeld(next) then w.commits + {w.toHost[0].request} else w.commits)
    case HostSettle(acquired) =>
      var (next, receipts) := Settle(w.host, acquired);
      w.(host := next, toClient := w.toClient + receipts)
    case HostStop => w.(host := w.host.(phase := Exiting))
    case HostClose => w.(host := w.host.(phase := Closed))
    case HostRelease => w.(host := w.host.(phase := Gone, task := NoTask))
    case HostDie => w.(host := w.host.(phase := Gone, task := NoTask))
    case ProcessExit => w.(client := Free, host := NewHost, toHost := [])
  }

  function Perform(w: World, action: Action): World { if Enabled(w, action) then Act(w, action) else w }

  function RunAll(w: World, actions: seq<Action>): World
    decreases |actions|
  {
    if actions == [] then w else RunAll(Perform(w, actions[0]), actions[1..])
  }

  // ---- The invariant ---------------------------------------------------------

  ghost predicate RequestsUsed(w: World) {
    && (forall c | c in w.toHost :: c.request in w.used)
    && (forall e | e in w.toClient :: e.request in w.used)
    && (w.host.request.Some? ==> w.host.request.value in w.used)
    && (w.client.Busy? ==> w.client.request in w.used)
  }

  /** The host's state says what its task does; a committed host is on its way out with the gate held. */
  ghost predicate HostOk(h: Host) {
    && (h.task.Holding? ==> h.request.Some? && (h.state.Ready? || h.state.Committed?))
    && (h.task.Acquiring? ==> h.request.Some? && h.state.Waiting?)
    && (h.phase.Gone? ==> h.task.NoTask?)
    && (!h.phase.Gone? ==>
         && (h.state.Ready? || h.state.Committed? ==> h.task.Holding?)
         && (h.state.Waiting? ==> h.task.Acquiring?)
         && (h.state.Committed? ==> !h.phase.Serving?))
  }

  ghost predicate ReadyFor(h: Host, r: Request) { h.request == Some(r) && h.state.Ready? && h.task.Holding? }

  /** A request that is asked for or prepared has not been cancelled or committed, and prepared means ready. */
  ghost predicate ReadyMeansHeld(w: World) {
    w.client.Busy? && (w.client.step.Asked? || w.client.step.Prepared?) ==>
      var r := w.client.request;
      && Cancel(r) !in w.toHost && Commit(r) !in w.toHost
      && (w.client.step.Prepared? || Receipt(r, Ready) in w.toClient ==> !w.host.phase.Serving? || ReadyFor(w.host, r))
  }

  ghost predicate CommitMeansReady(w: World) {
    forall r | Commit(r) in w.toHost :: Cancel(r) !in w.toHost && (!w.host.phase.Serving? || ReadyFor(w.host, r))
  }

  ghost predicate GrantsAreCommits(w: World) {
    w.granted <= w.commits && forall r | Receipt(r, Committed) in w.toClient :: r in w.commits
  }

  /** A preparation that still waits in the pipe is unknown to the host, and its only one. */
  ghost predicate PreparesAreNew(w: World) {
    forall i | 0 <= i < |w.toHost| && w.toHost[i].Prepare? ::
      var r := w.toHost[i].request;
      && w.host.request != Some(r)
      && (forall e | e in w.toClient :: e.request != r)
      && (forall j | 0 <= j < i :: w.toHost[j].request != r)
      && (forall j | i < j < |w.toHost| :: w.toHost[j] != Prepare(r))
  }

  /** Nobody forgets a request whose preparation is still on its way. */
  ghost predicate PreparesAreWanted(w: World) {
    forall r | Prepare(r) in w.toHost :: (w.client.Busy? && w.client.request == r) || Cancel(r) in w.toHost
  }

  /** After a refusal the host does not work on the request any more. */
  ghost predicate RefusedMeansOver(w: World) {
    w.host.phase.Serving? && Alive(w.host.task) ==>
      forall e | e in w.toClient && (e.state.Failed? || e.state.Cancelled?) :: Some(e.request) != w.host.request
  }

  /** A serving host never holds or awaits the gate for a request that everyone has forgotten. */
  ghost predicate GateIsWanted(w: World) {
    w.host.phase.Serving? && Alive(w.host.task) ==>
      var r := w.host.request;
      r.Some? && ((w.client.Busy? && w.client.request == r.value) || Cancel(r.value) in w.toHost)
  }

  ghost predicate Inv(w: World) {
    && RequestsUsed(w) && HostOk(w.host) && ReadyMeansHeld(w) && CommitMeansReady(w) && GrantsAreCommits(w)
    && PreparesAreNew(w) && PreparesAreWanted(w) && RefusedMeansOver(w) && GateIsWanted(w)
  }

  lemma StartIsFine()
    ensures Inv(Start)
  {
  }

  lemma ActKeepsHost(w: World, action: Action)
    requires Inv(w) && Enabled(w, action)
    ensures HostOk(Act(w, action).host) && RequestsUsed(Act(w, action)) && GrantsAreCommits(Act(w, action))
  {
  }

  lemma ActKeepsReady(w: World, action: Action)
    requires Inv(w) && Enabled(w, action)
    ensures ReadyMeansHeld(Act(w, action)) && CommitMeansReady(Act(w, action))
  {
  }

  lemma ActKeepsWanted(w: World, action: Action)
    requires Inv(w) && Enabled(w, action)
    ensures PreparesAreWanted(Act(w, action))
  {
    if w.toHost != [] { assert w.toHost == [w.toHost[0]] + w.toHost[1..]; }
  }

  /** Receiving a command, only its own request becomes known or gets receipts. */
  lemma ReceiveConcernsOne(h: Host, command: Command)
    ensures var (next, receipts) := Receive(h, command);
            && (next.request == h.request || next.request == Some(command.request))
            && forall e | e in receipts :: e.request == command.request
  {
  }

  lemma HostReceiveKeepsPrepares(w: World)
    requires Inv(w) && Enabled(w, HostReceive)
    ensures PreparesAreNew(Act(w, HostReceive))
  {
    ReceiveConcernsOne(w.host, w.toHost[0]);
    hide Receive, HostOk, ReadyMeansHeld, CommitMeansReady, GrantsAreCommits, RefusedMeansOver, GateIsWanted, PreparesAreWanted;
    var rest := w.toHost[1..];
    forall i | 0 <= i < |rest| && rest[i].Prepare?
      ensures rest[i].request != w.toHost[0].request && w.host.request != Some(rest[i].request)
      ensures forall e | e in w.toClient :: e.request != rest[i].request
      ensures (forall j | 0 <= j < i :: rest[j].request != rest[i].request) && forall j | i < j < |rest| :: rest[j] != Prepare(rest[i].request)
    {
      assert w.toHost[i + 1] == rest[i];
      assert forall j | 0 <= j < |rest| :: rest[j] == w.toHost[j + 1];
    }
  }

  lemma ActKeepsPrepares(w: World, action: Action)
    requires Inv(w) && Enabled(w, action)
    ensures PreparesAreNew(Act(w, action))
  {
    if action.HostReceive? {
      HostReceiveKeepsPrepares(w);
    } else {
      hide Receive, ReadyMeansHeld, CommitMeansReady, GrantsAreCommits, RefusedMeansOver, GateIsWanted, PreparesAreWanted;
    }
  }

  lemma ActKeepsRefused(w: World, action: Action)
    requires Inv(w) && Enabled(w, action)
    ensures RefusedMeansOver(Act(w, action))
  {
  }

  lemma ActKeepsGate(w: World, action: Action)
    requires Inv(w) && Enabled(w, action)
    ensures GateIsWanted(Act(w, action))
  {
    if w.toHost != [] { assert w.toHost == [w.toHost[0]] + w.toHost[1..]; }
    if w.toClient != [] { assert w.toClient[0] in w.toClient; }
  }

  /** In every interleaving, late receipts included. */
  lemma {:induction false} EveryRunKeepsInv(w: World, actions: seq<Action>)
    requires Inv(w)
    ensures Inv(RunAll(w, actions))
    decreases |actions|
  {
    if actions != [] {
      if Enabled(w, actions[0]) {
        ActKeepsHost(w, actions[0]);
        ActKeepsReady(w, actions[0]);
        ActKeepsPrepares(w, actions[0]);
        ActKeepsWanted(w, actions[0]);
        ActKeepsRefused(w, actions[0]);
        ActKeepsGate(w, actions[0]);
      }
      hide Act, Enabled, RequestsUsed, HostOk, ReadyMeansHeld, CommitMeansReady, GrantsAreCommits;
      hide PreparesAreNew, PreparesAreWanted, RefusedMeansOver, GateIsWanted;
      EveryRunKeepsInv(Perform(w, actions[0]), actions[1..]);
    }
  }

  // ---- What it is for --------------------------------------------------------

  /** A commit returns normally only for a request that the host committed while it held the gate. */
  lemma GrantedWasCommitted(w: World, actions: seq<Action>, r: Request)
    requires Inv(w)
    ensures r in RunAll(w, actions).granted ==> r in RunAll(w, actions).commits
  {
    EveryRunKeepsInv(w, actions);
  }

  /** Once committed, only closing the host, or its death, can end the gate. */
  lemma GateOutlivesTheHost(w: World, action: Action)
    requires Inv(w) && w.host.state.Committed? && !w.host.phase.Gone?
    ensures GateHeld(w.host)
    ensures GateHeld(Perform(w, action).host) || (action.HostRelease? && w.host.phase.Closed?) || action.HostDie?
    ensures !Perform(w, action).host.phase.Serving?
  {
  }

  /** While the client believes its update prepared, a serving host holds the gate for exactly that request. */
  lemma PreparedMeansHeld(w: World)
    requires Inv(w) && w.client.Busy? && w.client.step.Prepared? && w.host.phase.Serving?
    ensures GateHeld(w.host) && w.host.request == Some(w.client.request)
  {
  }

  /** A commit that arrives at a serving host is never refused. */
  lemma CommitSucceeds(w: World)
    requires Inv(w) && w.toHost != [] && w.toHost[0].Commit? && w.host.phase.Serving?
    ensures Receive(w.host, w.toHost[0]).1 == [Receipt(w.toHost[0].request, Committed)]
  {
    assert w.toHost[0] in w.toHost;
  }

  /** When the client has no update and nothing is on its way, a serving host accepts work again. */
  lemma NoGateIsForgotten(w: World)
    requires Inv(w) && w.client.Free? && w.toHost == [] && w.host.phase.Serving?
    ensures !GateHeld(w.host) && !w.host.task.Acquiring?
  {
  }

  // ---- Progress --------------------------------------------------------------

  ghost predicate Answered(w: World, r: Request, states: set<State>) {
    exists e :: e in w.toClient && e.request == r && e.state in states
  }

  /** The client never waits for nothing: while the host serves, the answer it waits for is on its way or being worked on. */
  ghost predicate AnswerIsDue(w: World) {
    w.client.Busy? ==>
      var r := w.client.request;
      match w.client.step
      case Asked =>
        w.host.phase.Serving? ==>
          Prepare(r) in w.toHost || (w.host.request == Some(r) && w.host.task.Acquiring?) || Answered(w, r, {Ready, Failed})
      case Prepared => true
      case Cancelling => w.host.phase.Serving? ==> Cancel(r) in w.toHost || Answered(w, r, {Cancelled, Failed})
      case Committing =>
        w.host.phase.Serving? || r in w.commits ==> Commit(r) in w.toHost || Answered(w, r, {Committed}) || r in w.granted
  }

  ghost predicate Progresses(w: World) { Inv(w) && AnswerIsDue(w) }

  lemma ClientKeepsDue(w: World, action: Action)
    requires Progresses(w) && Enabled(w, action)
    requires action.ClientPrepare? || action.ClientCancel? || action.ClientCommit?
    ensures AnswerIsDue(Act(w, action))
  {
    hide Answered;
  }

  lemma AnswerKept(w: World, next: World, r: Request, states: set<State>)
    requires Answered(w, r, states) && forall e | e in w.toClient :: e in next.toClient
    ensures Answered(next, r, states)
  {
  }

  lemma ReceiveKeepsDue(w: World)
    requires Progresses(w) && Enabled(w, ClientReceive)
    ensures AnswerIsDue(Act(w, ClientReceive))
  {
    var next, first := Act(w, ClientReceive), w.toClient[0];
    assert w.toClient == [first] + w.toClient[1..];
    forall r, states | Answered(w, r, states) && !(first.request == r && first.state in states) ensures Answered(next, r, states) {
      var e :| e in w.toClient && e.request == r && e.state in states;
      assert e in next.toClient;
    }
    hide Answered, RequestsUsed, HostOk, CommitMeansReady, PreparesAreNew, PreparesAreWanted, RefusedMeansOver, GateIsWanted, ReadyMeansHeld;
  }

  lemma HostKeepsDue(w: World)
    requires Progresses(w) && Enabled(w, HostReceive)
    ensures AnswerIsDue(Act(w, HostReceive))
  {
    var next, first := Act(w, HostReceive), w.toHost[0];
    assert w.toHost == [first] + w.toHost[1..] && first in w.toHost;
    forall r, states | Answered(w, r, states) ensures Answered(next, r, states) { AnswerKept(w, next, r, states); }
    forall e, states: set<State> | e in Receive(w.host, first).1 && e.state in states ensures Answered(next, e.request, states) {
      assert e in next.toClient;
    }
    hide Answered, RequestsUsed, RefusedMeansOver, GateIsWanted, PreparesAreWanted;
  }

  lemma SettleKeepsDue(w: World, acquired: bool)
    requires Progresses(w) && Enabled(w, HostSettle(acquired))
    ensures AnswerIsDue(Act(w, HostSettle(acquired)))
  {
    var next := Act(w, HostSettle(acquired));
    forall r, states | Answered(w, r, states) ensures Answered(next, r, states) { AnswerKept(w, next, r, states); }
    var receipts := Settle(w.host, acquired).1;
    forall e, states: set<State> | e in receipts && e.state in states ensures Answered(next, e.request, states) {
      assert e in next.toClient;
    }
    hide Answered, RefusedMeansOver, GateIsWanted, PreparesAreWanted, PreparesAreNew, CommitMeansReady;
  }

  lemma ActKeepsDue(w: World, action: Action)
    requires Progresses(w) && Enabled(w, action)
    ensures AnswerIsDue(Act(w, action))
  {
    match action
    case ClientReceive => ReceiveKeepsDue(w);
    case HostReceive => HostKeepsDue(w);
    case HostSettle(acquired) => SettleKeepsDue(w, acquired);
    case ClientPrepare(_) => ClientKeepsDue(w, action);
    case ClientCancel => ClientKeepsDue(w, action);
    case ClientCommit => ClientKeepsDue(w, action);
    case _ =>
  }

  /** Over every run: while the host serves, the client's request is being worked on or its answer is on the way. */
  lemma {:induction false} EveryRunAnswers(w: World, actions: seq<Action>)
    requires Progresses(w)
    ensures Progresses(RunAll(w, actions))
    decreases |actions|
  {
    if actions != [] {
      if Enabled(w, actions[0]) { ActKeepsDue(w, actions[0]); }
      var one := [actions[0]];
      EveryRunKeepsInv(w, one);
      assert one[1..] == [] && RunAll(Perform(w, one[0]), one[1..]) == Perform(w, one[0]);
      hide Act, Enabled, Inv, AnswerIsDue, Perform;
      EveryRunAnswers(Perform(w, actions[0]), actions[1..]);
    }
  }

  lemma StartProgresses()
    ensures Progresses(Start)
  {
  }

  // ---- An update that goes through -------------------------------------------

  /** The client has no update, nothing is on its way, and the host serves. */
  ghost predicate AllIdle(w: World) { Inv(w) && w.client.Free? && w.toHost == [] && w.toClient == [] && w.host.phase.Serving? }

  /** The steps of one preparation: the command arrives, the gate is acquired, and the receipt comes back. */
  function Preparing(r: Request): seq<Action> { [ClientPrepare(r), HostReceive, HostSettle(true), ClientReceive] }

  function CommittingSteps(): seq<Action> { [ClientCommit, HostReceive, ClientReceive] }

  lemma RunFour(w: World, actions: seq<Action>)
    requires |actions| == 4
    ensures RunAll(w, actions) == Perform(Perform(Perform(Perform(w, actions[0]), actions[1]), actions[2]), actions[3])
  {
    hide Perform;
    var three, two, one := actions[1..], actions[1..][1..], actions[1..][1..][1..];
    assert one[1..] == [];
    assert RunAll(w, actions) == RunAll(Perform(w, actions[0]), three);
    assert RunAll(Perform(w, actions[0]), three) == RunAll(Perform(Perform(w, actions[0]), actions[1]), two);
    var v := Perform(Perform(w, actions[0]), actions[1]);
    assert RunAll(v, two) == RunAll(Perform(v, actions[2]), one) == RunAll(Perform(Perform(v, actions[2]), actions[3]), []);
  }

  lemma RunThree(w: World, actions: seq<Action>)
    requires |actions| == 3
    ensures RunAll(w, actions) == Perform(Perform(Perform(w, actions[0]), actions[1]), actions[2])
  {
    hide Perform;
    var two, one := actions[1..], actions[1..][1..];
    assert one[1..] == [];
    var v := Perform(w, actions[0]);
    assert RunAll(w, actions) == RunAll(v, two) == RunAll(Perform(v, actions[1]), one) == RunAll(Perform(Perform(v, actions[1]), actions[2]), []);
  }

  /** A preparation of an idle host is taken up: the host acquires the gate for it, and the client learns that it is prepared. */
  lemma IdleHostPrepares(w: World, r: Request)
    requires AllIdle(w) && r !in w.used
    ensures var v := RunAll(w, Preparing(r));
            && v.client == Busy(r, Prepared) && v.toHost == [] && v.toClient == [] && v.host.phase.Serving?
            && GateHeld(v.host) && v.host.request == Some(r) && v.host.state.Ready?
            && v.used == w.used + {r} && v.commits == w.commits && v.granted == w.granted
  {
    NoGateIsForgotten(w);
    RunFour(w, Preparing(r));
    var asked := Perform(w, ClientPrepare(r));
    assert asked.toHost == [Prepare(r)];
    var taken := Perform(asked, HostReceive);
    assert taken.host.task.Acquiring? && taken.host.request == Some(r) && taken.toHost == [] && taken.toClient == [];
    var ready := Perform(taken, HostSettle(true));
    assert ready.toClient == [Receipt(r, Ready)] && ready.toHost == [];
    assert ready.toClient[1..] == [];
  }

  /** A prepared update is committed, and its commit returns to the client with the gate held. */
  lemma PreparedUpdateCommits(w: World, r: Request)
    requires w.client == Busy(r, Prepared) && w.toHost == [] && w.toClient == [] && w.host.phase.Serving?
    requires w.host.request == Some(r) && w.host.state.Ready? && GateHeld(w.host)
    ensures var v := RunAll(w, CommittingSteps());
            && r in v.granted && r in v.commits && GateHeld(v.host) && v.host.phase.Exiting? && v.host.state.Committed?
  {
    RunThree(w, CommittingSteps());
    var asked := Perform(w, ClientCommit);
    assert asked.toHost == [Commit(r)];
    var done := Perform(asked, HostReceive);
    assert done.toClient == [Receipt(r, Committed)] && r in done.commits;
  }

  /** From every idle moment of every run an update can be prepared and committed. */
  lemma UpdatesGoThrough(actions: seq<Action>, r: Request)
    requires AllIdle(RunAll(Start, actions)) && r !in RunAll(Start, actions).used
    ensures var v := RunAll(RunAll(RunAll(Start, actions), Preparing(r)), CommittingSteps());
            r in v.granted && r in v.commits && GateHeld(v.host) && !v.host.phase.Serving?
  {
    IdleHostPrepares(RunAll(Start, actions), r);
    hide AllIdle, RunAll;
    PreparedUpdateCommits(RunAll(RunAll(Start, actions), Preparing(r)), r);
  }

  /** A prepared update that is cancelled gives the gate back, and the host serves on. */
  lemma PreparedUpdateCancels(w: World, r: Request)
    requires w.client == Busy(r, Prepared) && w.toHost == [] && w.toClient == [] && w.host.phase.Serving?
    requires w.host.request == Some(r) && w.host.state.Ready? && GateHeld(w.host)
    ensures var v := RunAll(w, [ClientCancel, HostReceive, ClientReceive]);
            v.client.Free? && !Alive(v.host.task) && v.host.phase.Serving? && v.commits == w.commits && v.granted == w.granted
  {
    RunThree(w, [ClientCancel, HostReceive, ClientReceive]);
    var asked := Perform(w, ClientCancel);
    assert asked.toHost == [Cancel(r)];
    var done := Perform(asked, HostReceive);
    assert done.toClient == [Receipt(r, Cancelled)];
  }
}

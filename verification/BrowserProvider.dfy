/**
 One browser preparation shared by any number of cancellable callers.

 The lock is never held across an await, so each critical section is one step.
 */
module BrowserProvider {
  import opened Options

  type Caller = nat
  type TaskId = nat

  /** Where a caller is: outside, blocked by a closing phase, waiting for a task, or ending it as the last one. */
  datatype Place = Outside | Blocked | Waits(task: TaskId) | Settles(task: TaskId)

  /** A task runs, was asked to stop, or has ended. */
  datatype Progress = Running | Stopping | Ended

  datatype World = World(task: Option<TaskId>, waiters: nat, closing: bool,
                         places: map<Caller, Place>, tasks: map<TaskId, Progress>)

  const Start: World := World(None, 0, false, map[], map[])

  function PlaceOf(w: World, c: Caller): Place { if c in w.places then w.places[c] else Outside }

  datatype Action =
    | Enter(caller: Caller, newTask: TaskId)
    | GiveUp(caller: Caller)
    | Leave(caller: Caller)
    | Finish(caller: Caller)
    | TaskEnds(task: TaskId)

  predicate Enabled(w: World, action: Action) {
    match action
    case Enter(c, t) => PlaceOf(w, c) in {Outside, Blocked} && t !in w.tasks
    case GiveUp(c) => PlaceOf(w, c).Blocked?
    case Leave(c) => PlaceOf(w, c).Waits? && w.waiters > 0
    case Finish(c) => PlaceOf(w, c).Settles? && PlaceOf(w, c).task in w.tasks && w.tasks[PlaceOf(w, c).task].Ended?
    case TaskEnds(t) => t in w.tasks && !w.tasks[t].Ended?
  }

  function Act(w: World, action: Action): World
    requires Enabled(w, action)
  {
    match action
    case Enter(c, t) =>
      if w.closing then w.(places := w.places[c := Blocked])
      else
        var task := if w.task.Some? then w.task.value else t;
        w.(task := Some(task), waiters := w.waiters + 1, places := w.places[c := Waits(task)],
           tasks := if w.task.Some? then w.tasks else w.tasks[t := Running])
    case GiveUp(c) => w.(places := w.places[c := Outside])
    case Leave(c) =>
      var t := PlaceOf(w, c).task;
      if w.waiters > 1 then w.(waiters := w.waiters - 1, places := w.places[c := Outside])
      else w.(waiters := 0, closing := true, task := None, places := w.places[c := Settles(t)],
              tasks := if t in w.tasks && w.tasks[t].Running? then w.tasks[t := Stopping] else w.tasks)
    case Finish(c) => w.(closing := false, places := w.places[c := Outside])
    case TaskEnds(t) => w.(tasks := w.tasks[t := Ended])
  }

  function Perform(w: World, action: Action): World { if Enabled(w, action) then Act(w, action) else w }

  function RunAll(w: World, actions: seq<Action>): World
    decreases |actions|
  {
    if actions == [] then w else RunAll(Perform(w, actions[0]), actions[1..])
  }

  // ---- The invariant ---------------------------------------------------------

  function WaitingFor(w: World, t: TaskId): set<Caller> {
    set c | c in w.places && w.places[c] == Waits(t)
  }

  /** Everyone waits for the one shared task, and the counter counts them. */
  ghost predicate WaitersCounted(w: World) {
    && (forall c | c in w.places && w.places[c].Waits? :: w.task == Some(w.places[c].task))
    && (w.task.Some? ==> w.waiters == |WaitingFor(w, w.task.value)| && w.waiters > 0 && !w.closing && w.task.value in w.tasks)
    && (w.task.None? ==> w.waiters == 0)
  }

  /** The closing phase belongs to exactly one caller, the last one. */
  ghost predicate OneCloser(w: World) {
    && (forall c, d | c in w.places && d in w.places && w.places[c].Settles? && w.places[d].Settles? :: c == d)
    && (w.closing <==> exists c :: c in w.places && w.places[c].Settles?)
    && (forall c | c in w.places && w.places[c].Settles? :: w.places[c].task in w.tasks)
  }

  /** A task that has not ended is the shared one or the one being closed; only the latter is stopped. */
  ghost predicate AliveIsKnown(w: World) {
    && (forall t | t in w.tasks && !w.tasks[t].Ended? :: w.task == Some(t) || exists c :: c in w.places && w.places[c] == Settles(t))
    && (forall t | t in w.tasks && w.tasks[t].Stopping? :: w.task != Some(t))
  }

  ghost predicate Inv(w: World) { WaitersCounted(w) && OneCloser(w) && AliveIsKnown(w) }

  lemma StartIsFine()
    ensures Inv(Start)
  {
  }

  lemma EnterCounts(w: World, c: Caller, t: TaskId)
    requires Inv(w) && Enabled(w, Enter(c, t))
    ensures WaitersCounted(Act(w, Enter(c, t)))
  {
    var next := Act(w, Enter(c, t));
    if !w.closing {
      var task := next.task.value;
      if w.task.Some? {
        assert WaitingFor(next, task) == WaitingFor(w, task) + {c};
      } else {
        assert WaitingFor(next, task) == {c};
      }
    }
  }

  /** Nobody waits for a task with an empty crowd. */
  lemma NobodyWaits(w: World, t: TaskId, c: Caller)
    requires WaitingFor(w, t) == {} && c in w.places
    ensures w.places[c] != Waits(t)
  {
    assert c !in WaitingFor(w, t);
  }

  lemma LeaveCounts(w: World, c: Caller)
    requires Inv(w) && Enabled(w, Leave(c))
    ensures WaitersCounted(Act(w, Leave(c)))
  {
    var next := Act(w, Leave(c));
    var task := w.task.value;
    assert WaitingFor(next, task) == WaitingFor(w, task) - {c};
    if w.waiters == 1 {
      assert |WaitingFor(next, task)| == 0;
      forall d | d in next.places ensures next.places[d] != Waits(task) {
        NobodyWaits(next, task, d);
      }
    }
  }

  lemma OthersCount(w: World, action: Action)
    requires Inv(w) && Enabled(w, action) && (action.GiveUp? || action.TaskEnds?)
    ensures WaitersCounted(Act(w, action))
  {
    var next := Act(w, action);
    if w.task.Some? { assert WaitingFor(next, w.task.value) == WaitingFor(w, w.task.value); }
  }

  lemma ActCounts(w: World, action: Action)
    requires Inv(w) && Enabled(w, action)
    ensures WaitersCounted(Act(w, action))
  {
    match action
    case Enter(c, t) => EnterCounts(w, c, t);
    case Leave(c) => LeaveCounts(w, c);
    case Finish(_) =>
    case _ => OthersCount(w, action);
  }

  lemma ActKeepsCloser(w: World, action: Action)
    requires Inv(w) && Enabled(w, action)
    ensures OneCloser(Act(w, action))
  {
    hide WaitingFor;
    var next := Act(w, action);
    if action.Leave? && w.waiters == 1 {
      assert next.places[action.caller].Settles?;
    } else if w.closing && !action.Finish? {
      var c :| c in w.places && w.places[c].Settles?;
      assert next.places[c].Settles?;
    }
  }

  lemma ActKeepsAlive(w: World, action: Action)
    requires Inv(w) && Enabled(w, action)
    ensures AliveIsKnown(Act(w, action))
  {
    hide WaitingFor;
    var next := Act(w, action);
    forall t | t in next.tasks && !next.tasks[t].Ended?
      ensures next.task == Some(t) || exists c :: c in next.places && next.places[c] == Settles(t)
    {
      if action.Leave? && w.waiters == 1 && w.task == Some(t) {
        assert next.places[action.caller] == Settles(t);
      } else if t in w.tasks && w.task != Some(t) {
        var c :| c in w.places && w.places[c] == Settles(t);
        assert next.places[c] == Settles(t);
      }
    }
  }

  lemma {:induction false} EveryRunKeepsInv(w: World, actions: seq<Action>)
    requires Inv(w)
    ensures Inv(RunAll(w, actions))
    decreases |actions|
  {
    if actions != [] {
      if Enabled(w, actions[0]) {
        ActCounts(w, actions[0]);
        ActKeepsCloser(w, actions[0]);
        ActKeepsAlive(w, actions[0]);
      }
      hide WaitersCounted, OneCloser, AliveIsKnown, Act;
      EveryRunKeepsInv(Perform(w, actions[0]), actions[1..]);
    }
  }

  // ---- What it is for --------------------------------------------------------

  /** Never two preparations at a time. */
  lemma AtMostOneAlive(w: World, t: TaskId, u: TaskId)
    requires Inv(w) && t in w.tasks && u in w.tasks && !w.tasks[t].Ended? && !w.tasks[u].Ended?
    ensures t == u
  {
    if w.task != Some(t) {
      var c :| c in w.places && w.places[c] == Settles(t);
      assert w.closing;
    }
    if w.task != Some(u) {
      var c :| c in w.places && w.places[c] == Settles(u);
      assert w.closing;
    }
  }

  lemma WaitsForTheShared(w: World, t: TaskId, c: Caller)
    requires WaitersCounted(w) && w.task != Some(t)
    ensures c !in WaitingFor(w, t)
  {
  }

  /** Only a task that nobody waits for is stopped. */
  lemma StoppedWithoutWaiters(w: World, t: TaskId)
    requires Inv(w) && t in w.tasks && w.tasks[t].Stopping?
    ensures WaitingFor(w, t) == {}
  {
    forall c ensures c !in WaitingFor(w, t) { WaitsForTheShared(w, t, c); }
  }

  /** A new task starts only when every earlier one has ended. */
  lemma NewTaskAfterAllEnded(w: World, c: Caller, t: TaskId)
    requires Inv(w) && Enabled(w, Enter(c, t)) && t in Act(w, Enter(c, t)).tasks
    ensures forall u | u in w.tasks :: w.tasks[u].Ended?
  {
    assert w.task.None? && !w.closing;
  }

  /** Whoever waits is counted, so leaving is always possible. */
  lemma WaiterIsCounted(w: World, c: Caller)
    requires Inv(w) && PlaceOf(w, c).Waits?
    ensures Enabled(w, Leave(c)) && w.task == Some(PlaceOf(w, c).task) && w.waiters == |WaitingFor(w, PlaceOf(w, c).task)|
  {
  }

  /** Over every run: one preparation alive, the counter counts its waiters, and only a deserted one is stopped. */
  lemma EveryRunShares(actions: seq<Action>)
    ensures
      var w := RunAll(Start, actions);
      && (forall t, u | t in w.tasks && u in w.tasks && !w.tasks[t].Ended? && !w.tasks[u].Ended? :: t == u)
      && (forall t | t in w.tasks && w.tasks[t].Stopping? :: WaitingFor(w, t) == {})
      && (w.task.Some? ==> w.waiters == |WaitingFor(w, w.task.value)|)
  {
    StartIsFine();
    EveryRunKeepsInv(Start, actions);
    var w := RunAll(Start, actions);
    forall t, u | t in w.tasks && u in w.tasks && !w.tasks[t].Ended? && !w.tasks[u].Ended? ensures t == u {
      AtMostOneAlive(w, t, u);
    }
    forall t | t in w.tasks && w.tasks[t].Stopping? ensures WaitingFor(w, t) == {} {
      StoppedWithoutWaiters(w, t);
    }
  }

  // ---- What every caller gets ------------------------------------------------

  /** A preparation that has not ended runs on exactly as long as somebody waits for it. */
  ghost predicate StoppedIffDeserted(w: World) {
    forall t | t in w.tasks && !w.tasks[t].Ended? :: w.tasks[t].Stopping? <==> WaitingFor(w, t) == {}
  }

  lemma SomebodyWaits(w: World, t: TaskId)
    requires Inv(w) && w.task == Some(t)
    ensures WaitingFor(w, t) != {}
  {
  }

  lemma ClosedIsStopped(w: World, action: Action)
    requires Inv(w) && Enabled(w, action) && ClosedAreStopped(w)
    ensures ClosedAreStopped(Act(w, action))
  {
    hide WaitingFor;
    var next := Act(w, action);
    forall c | c in next.places && next.places[c].Settles?
      ensures next.places[c].task in next.tasks && !next.tasks[next.places[c].task].Running?
    {
      if c in w.places && w.places[c].Settles? { assert next.places[c] == w.places[c]; }
    }
  }

  /** What the last caller ends was asked to stop. */
  ghost predicate ClosedAreStopped(w: World) {
    forall c | c in w.places && w.places[c].Settles? :: w.places[c].task in w.tasks && !w.tasks[w.places[c].task].Running?
  }

  lemma {:induction false} EveryRunStopsClosed(w: World, actions: seq<Action>)
    requires Inv(w) && ClosedAreStopped(w)
    ensures Inv(RunAll(w, actions)) && ClosedAreStopped(RunAll(w, actions))
    decreases |actions|
  {
    if actions != [] {
      var one := [actions[0]];
      EveryRunKeepsInv(w, one);
      assert one[1..] == [] && RunAll(Perform(w, one[0]), one[1..]) == Perform(w, one[0]);
      if Enabled(w, actions[0]) { ClosedIsStopped(w, actions[0]); }
      hide Inv, Act, ClosedAreStopped, Perform;
      EveryRunStopsClosed(Perform(w, actions[0]), actions[1..]);
    }
  }

  /** Over every run: a preparation is stopped as soon as its last caller has left, and not before. */
  lemma EveryRunStopsDeserted(actions: seq<Action>)
    ensures StoppedIffDeserted(RunAll(Start, actions))
  {
    StartIsFine();
    EveryRunStopsClosed(Start, actions);
    var w := RunAll(Start, actions);
    hide RunAll;
    forall t | t in w.tasks && !w.tasks[t].Ended? ensures w.tasks[t].Stopping? <==> WaitingFor(w, t) == {} {
      if w.tasks[t].Stopping? { StoppedWithoutWaiters(w, t); }
      if w.tasks[t].Running? {
        if w.task == Some(t) {
          SomebodyWaits(w, t);
        } else {
          assert AliveIsKnown(w) && ClosedAreStopped(w);
        }
      }
    }
  }

  /** Who enters waits at once for the preparation that others wait for, or for a new one; only a closing phase makes it wait. */
  lemma EnteringWaits(w: World, c: Caller, newTask: TaskId)
    requires Inv(w) && Enabled(w, Enter(c, newTask))
    ensures var next := Act(w, Enter(c, newTask));
            if exists d :: d in w.places && w.places[d].Settles? then next == w.(places := w.places[c := Blocked])
            else
              && PlaceOf(next, c).Waits? && PlaceOf(next, c).task in next.tasks
              && (forall d | d in w.places && w.places[d].Waits? :: next.places[c] == w.places[d] && next.tasks == w.tasks)
              && ((forall d | d in w.places :: !w.places[d].Waits?) ==>
                   next.places[c] == Waits(newTask) && next.tasks == w.tasks[newTask := Running])
              && forall d | d != c :: PlaceOf(next, d) == PlaceOf(w, d)
  {
    if w.task.Some? {
      SomebodyWaits(w, w.task.value);
      var d :| d in WaitingFor(w, w.task.value);
      assert w.places[d].Waits?;
    }
    hide WaitingFor;
  }

  /** Who leaves while others wait changes nothing for them; the last one stops the preparation and stays until it has ended. */
  lemma LeavingStops(w: World, c: Caller)
    requires Inv(w) && PlaceOf(w, c).Waits?
    ensures Enabled(w, Leave(c))
    ensures var t, next := PlaceOf(w, c).task, Act(w, Leave(c));
            && (forall d | d != c :: PlaceOf(next, d) == PlaceOf(w, d))
            && if exists d :: d != c && d in w.places && w.places[d].Waits? then
                 next.tasks == w.tasks && next.task == Some(t) && PlaceOf(next, c).Outside?
               else
                 PlaceOf(next, c) == Settles(t) && !next.tasks[t].Running? && next.task.None? && next.closing
  {
    var t := PlaceOf(w, c).task;
    WaiterIsCounted(w, c);
    assert c in WaitingFor(w, t);
    if d :| d != c && d in w.places && w.places[d].Waits? {
      assert {c, d} <= WaitingFor(w, t);
      Counted({c, d}, WaitingFor(w, t));
    } else {
      forall d | d in WaitingFor(w, t) ensures d == c {}
      assert WaitingFor(w, t) == {c};
    }
  }

  lemma {:induction false} Counted(a: set<Caller>, b: set<Caller>)
    requires a <= b
    ensures |a| <= |b|
    decreases |a|
  {
    if a != {} {
      var x :| x in a;
      Counted(a - {x}, b - {x});
    }
  }

  /** Once the stopped preparation has ended and its last caller has gone, the next caller starts a new one. */
  lemma ClosingEnds(w: World, c: Caller, d: Caller, newTask: TaskId)
    requires Inv(w) && PlaceOf(w, c).Settles? && w.tasks[PlaceOf(w, c).task].Ended?
    requires d != c && PlaceOf(w, d) in {Outside, Blocked} && newTask !in w.tasks
    ensures Enabled(w, Finish(c)) && Enabled(Act(w, Finish(c)), Enter(d, newTask))
    ensures var next := Act(Act(w, Finish(c)), Enter(d, newTask));
            PlaceOf(next, c).Outside? && PlaceOf(next, d) == Waits(newTask) && next.tasks[newTask].Running?
  {
    hide WaitingFor;
    assert w.closing;
  }

  // ---- The object ------------------------------------------------------------

  class Provider {
    var task: Option<TaskId>
    var waiters: nat
    var closing: bool
    var tasks: map<TaskId, Progress>

    constructor ()
      ensures task.None? && waiters == 0 && !closing && tasks == map[]
    {
      task, waiters, closing, tasks := None, 0, false, map[];
    }

    /** The world with the callers where they are. */
    ghost function Model(places: map<Caller, Place>): World
      reads this
    {
      World(task, waiters, closing, places, tasks)
    }

    /** One pass of the entry loop: the task to wait for, or none during a closing phase. */
    method EnterOnce(newTask: TaskId, ghost places: map<Caller, Place>, ghost c: Caller) returns (joined: Option<TaskId>)
      requires Enabled(Model(places), Enter(c, newTask))
      modifies this
      ensures Model(places[c := if joined.Some? then Waits(joined.value) else Blocked]) == old(Act(Model(places), Enter(c, newTask)))
      ensures joined.None? <==> old(closing)
    {
      if closing {
        return None;
      }
      if task.None? {
        task := Some(newTask);
        tasks := tasks[newTask := Running];
      }
      waiters := waiters + 1;
      return task;
    }

    /** The end of a wait, for whatever reason; the last caller stops the task and closes. */
    method LeaveOnce(joined: TaskId, ghost places: map<Caller, Place>, ghost c: Caller) returns (last: bool)
      requires PlaceOf(Model(places), c) == Waits(joined) && waiters > 0
      modifies this
      ensures Model(places[c := if last then Settles(joined) else Outside]) == old(Act(Model(places), Leave(c)))
    {
      waiters := waiters - 1;
      last := waiters == 0;
      if last {
        closing := true;
        task := None;
        if joined in tasks && tasks[joined] == Running {
          tasks := tasks[joined := Stopping];
        }
      }
    }

    /** The stopped task has ended: the next caller may start a new one. */
    method FinishClosing(joined: TaskId, ghost places: map<Caller, Place>, ghost c: Caller)
      requires PlaceOf(Model(places), c) == Settles(joined) && joined in tasks && tasks[joined].Ended?
      modifies this
      ensures Model(places[c := Outside]) == old(Act(Model(places), Finish(c)))
    {
      closing := false;
    }
  }
}

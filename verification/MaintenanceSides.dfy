/** The two ends of the protocol as objects; each method is one step between awaits. */
module MaintenanceSides {
  import opened Maintenance
  import opened Options

  /** The host side: one preparation task and the state that receipts report. */
  class MaintenanceControl {
    var task: Task
    var request: Option<Request>
    var state: State
    var phase: Phase
    var sent: seq<Receipt>

    constructor ()
      ensures Model() == NewHost && sent == []
    {
      task, request, state, phase, sent := NoTask, None, Cancelled, Serving, [];
    }

    ghost function Model(): Host
      reads this
    {
      Host(request, state, task, phase)
    }

    method Report(r: Request, s: State)
      modifies `sent
      ensures sent == old(sent) + [Receipt(r, s)]
    {
      sent := sent + [Receipt(r, s)];
    }

    /** Cancelling the task leaves the gate. */
    method Close()
      modifies `task
      ensures task == NoTask
    {
      task := NoTask;
    }

    /** Whether the process may exit now; only a commit says so. */
    method ReceiveCommand(command: Command) returns (exits: bool)
      modifies this
      ensures (Model(), sent) == (Receive(old(Model()), command).0, old(sent) + Receive(old(Model()), command).1)
      ensures exits <==> command.Commit? && old(request) == Some(command.request) && old(state).Ready?
    {
      var r := command.request;
      exits := false;
      match command
      case Prepare(_) =>
        if request == Some(r) {
          if state != Waiting { Report(r, state); } else { assert sent == old(sent) + []; }
        } else if Alive(task) {
          Report(r, Failed);
        } else {
          request, state, task := Some(r), Waiting, Acquiring;
          assert sent == old(sent) + [];
        }
      case Cancel(_) =>
        if request != Some(r) {
          Report(r, Failed);
        } else if state == Committed {
          Report(r, Committed);
        } else {
          Close();
          state := Cancelled;
          Report(r, Cancelled);
        }
      case Commit(_) =>
        if request != Some(r) || state != Ready {
          Report(r, Failed);
        } else {
          state := Committed;
          phase := Exiting;
          Report(r, Committed);
          exits := true;
        }
    }

    /** The task's own step: it has the gate, or it could not get it. */
    method TaskSettles(acquired: bool)
      modifies this
      ensures (Model(), sent) == (Settle(old(Model()), acquired).0, old(sent) + Settle(old(Model()), acquired).1)
    {
      if task != Acquiring || request.None? || phase == Gone {
        assert sent == old(sent) + [];
        return;
      }
      if acquired {
        task, state := Holding, Ready;
        Report(request.value, Ready);
      } else {
        task, state := Over, Failed;
        Report(request.value, Failed);
      }
    }
  }

  /** The client side: one request at a time, and the waiters of its three calls. */
  class BackendProcess {
    var maintenanceID: Option<Request>
    var step: Step
    var sent: seq<Command>

    constructor ()
      ensures Model() == Free && sent == []
    {
      maintenanceID, step, sent := None, Asked, [];
    }

    ghost function Model(): Client
      reads this
    {
      if maintenanceID.None? then Free else Busy(maintenanceID.value, step)
    }

    method PrepareForUpdate(r: Request) returns (ok: bool)
      modifies this
      ensures ok <==> old(Model()).Free?
      ensures if ok then Model() == Busy(r, Asked) && sent == old(sent) + [Prepare(r)]
              else Model() == old(Model()) && sent == old(sent)
    {
      ok := maintenanceID.None?;
      if ok {
        maintenanceID, step := Some(r), Asked;
        sent := sent + [Prepare(r)];
      }
    }

    /** A cancellation is sent once; it cannot overtake a commit. */
    method RequestCancellation(r: Request)
      modifies this
      ensures var c := old(Model());
              if c.Busy? && c.request == r && (c.step.Asked? || c.step.Prepared?)
              then Model() == c.(step := Cancelling) && sent == old(sent) + [Cancel(r)]
              else Model() == c && sent == old(sent)
    {
      if maintenanceID == Some(r) && step != Committing && step != Cancelling {
        step := Cancelling;
        sent := sent + [Cancel(r)];
      }
    }

    method CommitPreparation() returns (ok: bool)
      modifies this
      ensures var c := old(Model());
              && (ok <==> c.Busy? && c.step.Prepared?)
              && if ok then Model() == c.(step := Committing) && sent == old(sent) + [Commit(c.request)]
                 else Model() == c && sent == old(sent)
    {
      ok := maintenanceID.Some? && step == Prepared;
      if ok {
        step := Committing;
        sent := sent + [Commit(maintenanceID.value)];
      }
    }

    /** Receipts of other requests change nothing. */
    method ReceiveReceipt(receipt: Receipt) returns (commitReturns: bool)
      modifies this
      ensures (Model(), commitReturns) == React(old(Model()), receipt) && sent == old(sent)
    {
      commitReturns := false;
      if maintenanceID != Some(receipt.request) {
        return;
      }
      match receipt.state
      case Ready => if step == Asked { step := Prepared; }
      case Cancelled => maintenanceID := None;
      case Failed => maintenanceID := None;
      case Committed => commitReturns := step == Committing;
      case Waiting =>
    }
  }
}

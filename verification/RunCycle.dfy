/** The runner as a program over a real controller, any adapter and any other threads. */
module RunCycle {
  import opened Prelude
  import opened Identity
  import opened Lifecycle
  import opened Controller
  import opened Journal
  import opened Runner

  /** An adapter: its n-th answer may be anything of the port's type, or an error. */
  class AnyAdapter {
    const answers: nat -> Reply
    var heard: seq<Call>

    constructor (answers: nat -> Reply)
      ensures this.answers == answers && heard == []
    {
      this.answers := answers;
      heard := [];
    }

    method Ask(call: Call) returns (reply: Reply)
      modifies this
      ensures Fits(call, reply) && heard == old(heard) + [call]
      ensures Fits(call, answers(|old(heard)|)) ==> reply == answers(|old(heard)|)
    {
      reply := if Fits(call, answers(|heard|)) then answers(|heard|) else ForeignError;
      heard := heard + [call];
    }
  }

  /** Everybody else who holds the controller's lock now and then, and the clock. */
  class Surroundings {
    const schedule: nat -> seq<Command>
    const beforeDeadline: nat -> bool
    var turn: nat

    constructor (schedule: nat -> seq<Command>, beforeDeadline: nat -> bool)
      ensures this.schedule == schedule && this.beforeDeadline == beforeDeadline && turn == 0
    {
      this.schedule := schedule;
      this.beforeDeadline := beforeDeadline;
      turn := 0;
    }
  }

  /** Equal up to what other threads may change. */
  ghost predicate SameThread(x: Cycle, y: Cycle) {
    y == x.(c := y.c)
  }

  lemma AnswersIgnoreTheController(x: Cycle, c: Snapshot, reply: Reply)
    requires x.pc.Waiting? && Fits(x.pc.call, reply)
    ensures Answer(x.(c := c), reply) == Answer(x, reply).(c := c)
  {
  }

  function Allowance(drainPolls: int): nat {
    if drainPolls < 0 then 0 else drainPolls
  }

  class LifecycleRunner {
    const ctrl: LifecycleController
    const adapter: AnyAdapter
    const others: Surroundings
    const drainPolls: int
    /** The schedule so far and where it has led, in terms of the cycle machine. */
    ghost var start: Cycle
    ghost var labels: seq<Label>
    ghost var x: Cycle
    /** What the adapter had heard before. */
    ghost var heardBefore: seq<Call>

    constructor (ctrl: LifecycleController, adapter: AnyAdapter, others: Surroundings, drainPolls: int)
      ensures this.ctrl == ctrl && this.adapter == adapter && this.others == others && this.drainPolls == drainPolls
    {
      this.ctrl, this.adapter, this.others, this.drainPolls := ctrl, adapter, others, drainPolls;
    }

    ghost predicate Tracking()
      reads this, ctrl, adapter
    {
      && x == Steps(start, labels) && x.c == ctrl.View()
      && Dialled(x) && adapter.heard == heardBefore + Answered(x)
    }

    ghost method Note(l: Label)
      requires x == Steps(start, labels) && Dialled(x) && Enabled(x, l)
      modifies this`labels, this`x
      ensures x == Step(old(x), l) && x == Steps(start, labels) && labels == old(labels) + [l]
      ensures Dialled(x) && Answered(x) == Answered(old(x)) + if l.Answering? then [old(x).pc.call] else []
    {
      StepAnswers(x, l);
      assert (labels + [l])[..|labels|] == labels;
      labels := labels + [l];
      x := Step(x, l);
    }

    method Dispatch(cmd: Command)
      requires Interferes(cmd)
      modifies ctrl
      ensures ctrl.View() == Apply(old(ctrl.View()), cmd).0
    {
      match cmd {
        case DoAdmit(id) => var _ := ctrl.AdmitRollout(id);
        case DoFinish(id) => var _ := ctrl.FinishRollout(id);
        case DoAbort(id) => var _ := ctrl.AbortRollout(id);
        case DoTaint(reason) => var _ := ctrl.Taint(reason);
      }
    }

    /** The lock is free: other threads run. */
    method Yield()
      requires Tracking()
      modifies ctrl, others, this`labels, this`x
      ensures Tracking() && SameThread(old(x), x)
    {
      var cmds := others.schedule(others.turn);
      others.turn := others.turn + 1;
      for i := 0 to |cmds|
        invariant Tracking() && SameThread(old(x), x)
      {
        if Interferes(cmds[i]) {
          Dispatch(cmds[i]);
          Note(Meddling(cmds[i]));
        }
      }
    }

    /** One adapter call, during which other threads may run. */
    method Request(call: Call) returns (reply: Reply)
      requires Tracking() && x.pc == Waiting(call)
      modifies ctrl, adapter, others, this`labels, this`x
      ensures Tracking() && Fits(call, reply) && SameThread(Answer(old(x), reply), x)
    {
      Yield();
      reply := adapter.Ask(call);
      AnswersIgnoreTheController(old(x), x.c, reply);
      Note(Answering(reply));
    }

    method TaintUnknown(call: Call)
      requires Tracking() && x.pc == Tainting(call)
      modifies ctrl, others, this`labels, this`x
      ensures Tracking() && x.pc == Failed(AdapterBroke(call)) && x.calls == old(x).calls
    {
      Yield();
      var _ := ctrl.Taint(UNKNOWN_OUTCOME);
      Note(Going(true));
    }

    /** A mutating adapter call: a foreign failure taints. */
    method Effect(call: Call) returns (reply: Reply, failure: Option<Failure>)
      requires Tracking() && x.pc == Waiting(call) && !Observes(call)
      modifies ctrl, adapter, others, this`labels, this`x
      ensures Tracking() && Fits(call, reply)
      ensures failure.Some? ==> x.pc == Failed(failure.value)
      ensures failure.None? ==> !reply.CoreError? && !reply.ForeignError? && SameThread(Answer(old(x), reply), x)
      ensures call.BootstrapCall? ==> x.calls == old(x).calls
    {
      reply := Request(call);
      failure := None;
      if reply.CoreError? {
        failure := Some(AdapterRaised(call));
      } else if reply.ForeignError? {
        TaintUnknown(call);
        failure := Some(AdapterBroke(call));
      }
    }

    /** An observing adapter call: failures propagate. */
    method Observe(call: Call) returns (reply: Reply, failure: Option<Failure>)
      requires Tracking() && x.pc == Waiting(call) && Observes(call)
      modifies ctrl, adapter, others, this`labels, this`x
      ensures Tracking() && Fits(call, reply)
      ensures failure.Some? ==> x.pc == Failed(failure.value)
      ensures failure.None? ==> !reply.CoreError? && !reply.ForeignError? && SameThread(Answer(old(x), reply), x)
    {
      reply := Request(call);
      failure :=
        if reply.CoreError? then Some(AdapterRaised(call))
        else if reply.ForeignError? then Some(AdapterBroke(call))
        else None;
    }

    /** One poll: quiesced, failed for good, or (None, false) to poll again. */
    method PollOnce() returns (failure: Option<Failure>, quiesced: bool)
      requires Tracking() && x.pc == Waiting(AwaitDrainCall)
      modifies ctrl, adapter, others, this`labels, this`x
      ensures Tracking() && (failure.None? ==> x.target == old(x).target && x.budget == old(x).budget)
      ensures failure.Some? ==> x.pc == Failed(failure.value)
      ensures failure.None? && quiesced ==> x.pc == AtBeginUpdate
      ensures failure.None? && !quiesced ==>
        if old(x).poll < x.budget then x.pc == Waiting(AwaitDrainCall) && x.poll == old(x).poll + 1
        else x.pc == Failed(BudgetSpent)
    {
      var reply;
      reply, failure := Observe(AwaitDrainCall);
      if failure.Some? {
        return failure, false;
      }
      Yield();
      var out := ctrl.ConfirmDrained(reply.drain);
      var early := others.beforeDeadline(others.turn);
      Note(Going(early));
      quiesced := out.Done?;
      failure := if out.Raised? && out != Raised(EvidenceNotReady) then Some(FromController(out.error)) else None;
    }

    /** The bounded polling loop. */
    method DrainUntilQuiesced() returns (failure: Option<Failure>)
      requires Tracking() && x.poll == (if drainPolls >= 1 then 1 else 0) && x.budget == drainPolls
      requires x.pc == (if drainPolls >= 1 then Waiting(AwaitDrainCall) else Failed(BudgetSpent))
      modifies ctrl, adapter, others, this`labels, this`x
      ensures Tracking() && (failure.None? ==> x.target == old(x.target))
      ensures x.pc == (if failure.Some? then Failed(failure.value) else AtBeginUpdate)
    {
      var poll := 1;
      while poll <= drainPolls
        invariant Tracking() && 1 <= poll && x.budget == drainPolls && x.target == old(x.target)
        invariant poll <= drainPolls ==> x.pc == Waiting(AwaitDrainCall) && x.poll == poll
        invariant poll > drainPolls ==> x.pc == Failed(BudgetSpent)
      {
        var quiesced;
        failure, quiesced := PollOnce();
        if failure.Some? || quiesced {
          return;
        }
        poll := poll + 1;
      }
      failure := Some(BudgetSpent);
    }

    method Submit(reply: Reply) returns (out: Outcome)
      requires x.pc == Confirming(reply) && CycleReply(reply) && !reply.GotDrain?
      modifies ctrl
      ensures (ctrl.View(), out) == Apply(old(ctrl.View()), CommandAt(x))
    {
      match reply {
        case GotUpdate(ev) => out := ctrl.ConfirmUpdated(ev);
        case GotInvalidate(ev) => out := ctrl.ConfirmInvalidated(ev);
        case GotValidate(ev) => out := ctrl.ConfirmValidated(ev);
        case GotResume(ev) => out := ctrl.ConfirmResumed(ev);
      }
    }

    /** Hands the evidence of an effect to the controller. */
    method Confirm(reply: Reply) returns (failure: Option<Failure>)
      requires Tracking() && CycleReply(reply) && !reply.GotDrain? && x.pc == Confirming(reply)
      modifies ctrl, others, this`labels, this`x
      ensures Tracking() && x.target == old(x.target)
      ensures x.pc == (if failure.Some? then Failed(failure.value) else NextPc(Confirming(reply)))
    {
      Yield();
      var out := Submit(reply);
      Note(Going(true));
      failure := if out.Raised? then Some(FromController(out.error)) else None;
    }

    /** Where a confirmed effect leads. */
    static function Onward(call: Call): Pc {
      match call
      case CompleteCall => Waiting(InvalidateCall)
      case InvalidateCall => Waiting(ValidateCall)
      case ValidateCall => Waiting(ResumeCall)
      case _ => Returned
    }

    /** One effect and the confirmation of its evidence. */
    method Perform(call: Call) returns (failure: Option<Failure>)
      requires Tracking() && x.pc == Waiting(call)
      requires call.CompleteCall? || call.InvalidateCall? || call.ValidateCall? || call.ResumeCall?
      modifies ctrl, adapter, others, this`labels, this`x
      ensures Tracking()
      ensures x.pc == (if failure.Some? then Failed(failure.value) else Onward(call))
    {
      var reply;
      if Observes(call) {
        reply, failure := Observe(call);
      } else {
        reply, failure := Effect(call);
      }
      if failure.None? {
        failure := Confirm(reply);
      }
    }

    /** The update is opened with the controller. */
    method OpenUpdate(target: UpdateTarget) returns (failure: Option<Failure>)
      requires Tracking() && x.pc == AtBeginUpdate && x.target == target
      modifies ctrl, others, this`labels, this`x
      ensures Tracking()
      ensures x.pc == (if failure.Some? then Failed(failure.value) else Waiting(StartCall))
    {
      Yield();
      var out := ctrl.BeginUpdate(target);
      Note(Going(true));
      failure := if out.Raised? then Some(FromController(out.error)) else None;
    }

    /** QUIESCED to INVALIDATING: the weights go in. */
    method Install(target: UpdateTarget) returns (failure: Option<Failure>)
      requires Tracking() && x.pc == AtBeginUpdate && x.target == target
      modifies ctrl, adapter, others, this`labels, this`x
      ensures Tracking()
      ensures x.pc == (if failure.Some? then Failed(failure.value) else Waiting(InvalidateCall))
    {
      failure := OpenUpdate(target);
      if failure.Some? {
        return;
      }
      var reply;
      reply, failure := Effect(StartCall);
      if failure.Some? {
        return;
      }
      failure := Perform(CompleteCall);
    }

    /** INVALIDATING to READY: caches dropped, target proven while paused, then resumed. */
    method Publish() returns (failure: Option<Failure>)
      requires Tracking() && x.pc == Waiting(InvalidateCall)
      modifies ctrl, adapter, others, this`labels, this`x
      ensures Tracking()
      ensures x.pc == (if failure.Some? then Failed(failure.value) else Returned)
    {
      failure := Perform(InvalidateCall);
      if failure.Some? {
        return;
      }
      failure := Perform(ValidateCall);
      if failure.Some? {
        return;
      }
      failure := Perform(ResumeCall);
    }

    /** READY to QUIESCED. */
    method Quiesce() returns (failure: Option<Failure>)
      requires Tracking() && x.pc == AtBeginDrain && x.poll == 0 && x.budget == drainPolls
      modifies ctrl, adapter, others, this`labels, this`x
      ensures Tracking() && (failure.None? ==> x.target == old(x.target))
      ensures x.pc == (if failure.Some? then Failed(failure.value) else AtBeginUpdate)
    {
      Yield();
      var out := ctrl.BeginDrain();
      Note(Going(true));
      if out.Raised? {
        return Some(FromController(out.error));
      }
      var reply;
      reply, failure := Effect(BeginDrainCall);
      if failure.Some? {
        return;
      }
      failure := DrainUntilQuiesced();
    }

    /** The cycle's effects in order, up to the first failure. */
    method Drive(target: UpdateTarget) returns (failure: Option<Failure>)
      modifies this, ctrl, adapter, others
      ensures start == Begin(old(ctrl.View()), target, drainPolls) && heardBefore == old(adapter.heard)
      ensures Tracking()
      ensures x.pc == (if failure.Some? then Failed(failure.value) else Returned)
    {
      start, labels, heardBefore := Begin(ctrl.View(), target, drainPolls), [], adapter.heard;
      x := start;
      failure := Quiesce();
      if failure.Some? {
        return;
      }
      failure := Install(target);
      if failure.Some? {
        return;
      }
      failure := Publish();
    }

    /**
      * One cycle: the run is a schedule of the cycle machine and ends where the machine ends,
      * so from READY it has committed its target or left the old one standing and unserved.
      */
    method RunOneCycle(target: UpdateTarget) returns (failure: Option<Failure>)
      modifies this, ctrl, adapter, others
      ensures var end := Steps(Begin(old(ctrl.View()), target, drainPolls), labels);
        && end.c == ctrl.View() && end.pc == (if failure.Some? then Failed(failure.value) else Returned)
        && adapter.heard == old(adapter.heard) + end.calls
      ensures Books(old(ctrl.View())) && old(ctrl.state) == READY ==>
        && (if failure.None? then ctrl.currentTarget == Some(target)
            else ctrl.currentTarget == old(ctrl.currentTarget) && ctrl.state != READY)
        && exists polls: nat :: polls <= Allowance(drainPolls)
             && adapter.heard[|old(adapter.heard)|..] <= WholeTrace(polls)
             && (failure.None? ==> adapter.heard[|old(adapter.heard)|..] == WholeTrace(polls))
    {
      failure := Drive(target);
      if Books(old(ctrl.View())) && old(ctrl.state) == READY {
        AllOrNothing(old(ctrl.View()), target, drainPolls, labels);
        FailClosedTrace(old(ctrl.View()), target, drainPolls, labels);
        assert adapter.heard[|old(adapter.heard)|..] == x.calls;
      }
    }

    /** One generation further: refused before anything is committed, and never turned down as stale. */
    method InstallNext(identity: Option<WeightIdentity>) returns (failure: Option<Failure>)
      modifies this, ctrl, adapter, others
      ensures NextTarget(old(ctrl.View()), identity).None? ==>
        && failure == Some(FromController(InvariantViolation(I1_ATOMICITY)))
        && ctrl.View() == old(ctrl.View()) && adapter.heard == old(adapter.heard)
      ensures NextTarget(old(ctrl.View()), identity).Some? ==>
        var end := Steps(Begin(old(ctrl.View()), NextTarget(old(ctrl.View()), identity).value, drainPolls), labels);
        && end.c == ctrl.View() && end.pc == (if failure.Some? then Failed(failure.value) else Returned)
        && adapter.heard == old(adapter.heard) + end.calls
      ensures Books(old(ctrl.View())) && old(ctrl.state) == READY ==>
        && NextTarget(old(ctrl.View()), identity).Some?
        && (if failure.None? then ctrl.currentTarget == NextTarget(old(ctrl.View()), identity)
            else ctrl.currentTarget == old(ctrl.currentTarget) && ctrl.state != READY)
        && (failure.Some? && Undisturbed(labels) ==> failure.value != FromController(InvariantViolation(I1_MONOTONIC)))
    {
      var target := ctrl.NextGeneration(identity);
      ghost var c := ctrl.View();
      if target.None? {
        return Some(FromController(InvariantViolation(I1_ATOMICITY)));
      }
      failure := RunOneCycle(target.value);
      if Books(c) && c.state == READY && failure.Some? && Undisturbed(labels) {
        NextGenerationIsNeverStale(c, identity, drainPolls, labels);
      }
    }

    /** Adoption: refused bootstraps pass through, foreign failures taint, evidence goes to the controller. */
    method Bootstrap() returns (failure: Option<Failure>)
      modifies this, ctrl, adapter, others
      ensures var end := Steps(BeginBootstrap(old(ctrl.View())), labels);
        && end.c == ctrl.View() && end.pc == (if failure.Some? then Failed(failure.value) else Returned)
        && adapter.heard == old(adapter.heard) + [BootstrapCall]
    {
      start, labels, heardBefore := BeginBootstrap(ctrl.View()), [], adapter.heard;
      x := start;
      var reply;
      reply, failure := Effect(BootstrapCall);
      if failure.Some? {
        return;
      }
      Yield();
      var out := ctrl.Initialize(reply.boot);
      Note(Going(true));
      if out.Raised? {
        failure := Some(FromController(out.error));
      }
    }
  }
}

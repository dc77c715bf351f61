/** The order of effects: one update cycle against any adapter, amid other threads. */
module Runner {
  import opened Prelude
  import opened Labels
  import opened Identity
  import opened Evidence
  import opened Lifecycle
  import opened Journal

  datatype Call =
    | BootstrapCall | BeginDrainCall | AwaitDrainCall | StartCall | CompleteCall | InvalidateCall | ValidateCall
    | ResumeCall

  /** What an adapter call comes back with. */
  datatype Reply =
    | Acked
    | GotBoot(boot: BootstrapEvidence)
    | GotDrain(drain: DrainEvidence)
    | GotUpdate(update: UpdateEvidence)
    | GotInvalidate(invalidate: InvalidateEvidence)
    | GotValidate(validate: ValidateEvidence)
    | GotResume(resume: ResumeEvidence)
    | CoreError       // any RolloutCoreError
    | ForeignError    // any other exception

  /** The port's result types. */
  predicate Fits(call: Call, reply: Reply) {
    || reply.CoreError? || reply.ForeignError?
    || match call
       case BootstrapCall => reply.GotBoot?
       case BeginDrainCall => reply.Acked?
       case AwaitDrainCall => reply.GotDrain?
       case StartCall => reply.Acked?
       case CompleteCall => reply.GotUpdate?
       case InvalidateCall => reply.GotInvalidate?
       case ValidateCall => reply.GotValidate?
       case ResumeCall => reply.GotResume?
  }

  /** The two calls whose foreign failures stay retryable. */
  predicate Observes(call: Call) {
    call.AwaitDrainCall? || call.ValidateCall?
  }

  datatype Failure =
    | FromController(error: Error)
    | BudgetSpent
    | AdapterRaised(call: Call)  // a RolloutCoreError, passed through
    | AdapterBroke(call: Call)   // a foreign exception

  /** Where the runner's thread stands. */
  datatype Pc =
    | AtBeginDrain
    | Waiting(call: Call)
    | Confirming(reply: Reply)
    | AtBeginUpdate
    | Tainting(call: Call)
    | Returned
    | Failed(why: Failure)

  datatype Cycle = Cycle(
    c: Snapshot, pc: Pc, target: UpdateTarget, budget: int,
    poll: nat, sleeps: nat, calls: seq<Call>, accepted: seq<Reply>)

  function Begin(c: Snapshot, target: UpdateTarget, budget: int): Cycle {
    Cycle(c, AtBeginDrain, target, budget, 0, 0, [], [])
  }

  /** A bootstrap: one adapter call, then initialize. */
  function BeginBootstrap(c: Snapshot): Cycle {
    Cycle(c, Waiting(BootstrapCall), NO_TARGET, 0, 0, 0, [BootstrapCall], [])
  }

  /** A placeholder; a bootstrap never reads its target. */
  const NO_TARGET := UpdateTarget(INITIAL_VERSION, WeightIdentity("", None, None, None))

  /** Evidence that a cycle, not a bootstrap, is gated on. */
  predicate CycleReply(reply: Reply) {
    reply.GotDrain? || reply.GotUpdate? || reply.GotInvalidate? || reply.GotValidate? || reply.GotResume?
  }

  // ------------------------------------------------------------------------- steps

  function Dial(x: Cycle, call: Call): Cycle {
    x.(pc := Waiting(call), calls := x.calls + [call])
  }

  function Poll(x: Cycle): Cycle {
    if x.poll < x.budget then Dial(x.(poll := x.poll + 1), AwaitDrainCall) else x.(pc := Failed(BudgetSpent))
  }

  /** After a controller call: on to `next`, the confirmed evidence accepted, unless it raised. */
  function Following(x: Cycle, r: Result, next: Pc): Cycle {
    match r.1
    case Raised(error) => x.(c := r.0, pc := Failed(FromController(error)))
    case _ =>
      var y := x.(c := r.0, accepted := if x.pc.Confirming? then x.accepted + [x.pc.reply] else x.accepted);
      if next.Waiting? then Dial(y, next.call) else y.(pc := next)
  }

  const UNKNOWN_OUTCOME := Told("unknown engine outcome")

  /** Places from which the runner next calls the controller. */
  predicate CallsController(pc: Pc) {
    pc.AtBeginDrain? || pc.AtBeginUpdate? || pc.Tainting? || (pc.Confirming? && (CycleReply(pc.reply) || pc.reply.GotBoot?))
  }

  function CommandAt(x: Cycle): Command
    requires CallsController(x.pc)
  {
    match x.pc
    case AtBeginDrain => DoBeginDrain
    case AtBeginUpdate => DoBeginUpdate(x.target)
    case Tainting(_) => DoTaint(UNKNOWN_OUTCOME)
    case Confirming(GotBoot(ev)) => DoInitialize(ev)
    case Confirming(GotDrain(ev)) => DoConfirmDrained(ev)
    case Confirming(GotUpdate(ev)) => DoConfirmUpdated(ev)
    case Confirming(GotInvalidate(ev)) => DoConfirmInvalidated(ev)
    case Confirming(GotValidate(ev)) => DoConfirmValidated(ev)
    case Confirming(GotResume(ev)) => DoConfirmResumed(ev)
  }

  function NextPc(pc: Pc): Pc
    requires CallsController(pc)
  {
    match pc
    case AtBeginDrain => Waiting(BeginDrainCall)
    case AtBeginUpdate => Waiting(StartCall)
    case Tainting(call) => Failed(AdapterBroke(call))
    case Confirming(GotDrain(_)) => AtBeginUpdate
    case Confirming(GotUpdate(_)) => Waiting(InvalidateCall)
    case Confirming(GotInvalidate(_)) => Waiting(ValidateCall)
    case Confirming(GotValidate(_)) => Waiting(ResumeCall)
    case Confirming(_) => Returned
  }

  /** What the runner does with the controller's result; `early` is the clock reading that allows a sleep. */
  function Heed(x: Cycle, r: Result, early: bool): Cycle
    requires CallsController(x.pc)
  {
    if x.pc.Tainting? then x.(c := r.0, pc := NextPc(x.pc))
    else if x.pc.Confirming? && x.pc.reply.GotDrain? && r.1 == Raised(EvidenceNotReady)
    then Poll(x.(c := r.0, sleeps := x.sleeps + if x.poll < x.budget && early then 1 else 0))
    else Following(x, r, NextPc(x.pc))
  }

  /** The runner's next controller call. */
  function Go(x: Cycle, early: bool): Cycle
    requires CallsController(x.pc)
  {
    Heed(x, Apply(x.c, CommandAt(x)), early)
  }

  function Answer(x: Cycle, reply: Reply): Cycle
    requires x.pc.Waiting? && Fits(x.pc.call, reply)
  {
    var call := x.pc.call;
    if reply.CoreError? then x.(pc := Failed(AdapterRaised(call)))
    else if reply.ForeignError? then
      if Observes(call) then x.(pc := Failed(AdapterBroke(call))) else x.(pc := Tainting(call))
    else
      match call
      case BeginDrainCall => Poll(x)
      case StartCall => Dial(x, CompleteCall)
      case _ => x.(pc := Confirming(reply))
  }

  /** What other threads may do to the controller while the cycle runs. */
  predicate Interferes(cmd: Command) {
    cmd.DoAdmit? || cmd.DoFinish? || cmd.DoAbort? || cmd.DoTaint?
  }

  datatype Label = Going(early: bool) | Answering(reply: Reply) | Meddling(cmd: Command)

  predicate Enabled(x: Cycle, l: Label) {
    match l
    case Going(_) => CallsController(x.pc)
    case Answering(reply) => x.pc.Waiting? && Fits(x.pc.call, reply)
    case Meddling(cmd) => Interferes(cmd)
  }

  function Step(x: Cycle, l: Label): Cycle {
    if !Enabled(x, l) then x else
      match l
      case Going(early) => Go(x, early)
      case Answering(reply) => Answer(x, reply)
      case Meddling(cmd) => x.(c := Apply(x.c, cmd).0)
  }

  function Steps(x: Cycle, ls: seq<Label>): Cycle {
    if ls == [] then x else Step(Steps(x, ls[..|ls| - 1]), ls[|ls| - 1])
  }

  /** The call being waited for is the last one made. */
  predicate Dialled(x: Cycle) {
    x.pc.Waiting? ==> x.calls != [] && x.calls[|x.calls| - 1] == x.pc.call
  }

  /** The calls that have been answered. */
  function Answered(x: Cycle): seq<Call>
    requires Dialled(x)
  {
    if x.pc.Waiting? then x.calls[..|x.calls| - 1] else x.calls
  }

  lemma StepAnswers(x: Cycle, l: Label)
    requires Dialled(x) && Enabled(x, l)
    ensures Dialled(Step(x, l))
    ensures Answered(Step(x, l)) == Answered(x) + if l.Answering? then [x.pc.call] else []
  {
  }

  // --------------------------------------------------------------------- invariant

  function StateFor(call: Call): LifecycleState {
    match call
    case BootstrapCall => UNINITIALIZED
    case BeginDrainCall => DRAINING
    case AwaitDrainCall => DRAINING
    case StartCall => UPDATING
    case CompleteCall => UPDATING
    case InvalidateCall => INVALIDATING
    case ValidateCall => VALIDATING
    case ResumeCall => RESUMING
  }

  function CallOf(reply: Reply): Call {
    match reply
    case GotBoot(_) => BootstrapCall
    case GotDrain(_) => AwaitDrainCall
    case GotUpdate(_) => CompleteCall
    case GotInvalidate(_) => InvalidateCall
    case GotValidate(_) => ValidateCall
    case GotResume(_) => ResumeCall
    case _ => BeginDrainCall
  }

  /** A cycle's own places, with the state the controller is in unless somebody tainted it. */
  predicate Placed(x: Cycle) {
    match x.pc
    case AtBeginDrain => x.c.state in {READY, TAINTED}
    case Waiting(call) => !call.BootstrapCall? && x.c.state in {StateFor(call), TAINTED}
    case Confirming(reply) => CycleReply(reply) && x.c.state in {StateFor(CallOf(reply)), TAINTED}
    case AtBeginUpdate => x.c.state in {QUIESCED, TAINTED}
    case Tainting(call) => !call.BootstrapCall? && !Observes(call) && x.c.state in {StateFor(call), TAINTED}
    case Returned => x.c.state in {READY, TAINTED}
    case Failed(_) => x.c.state != READY
  }

  const EFFECTS := [StartCall, CompleteCall, InvalidateCall, ValidateCall, ResumeCall]

  function Drains(polls: nat): seq<Call> {
    [BeginDrainCall] + seq(polls, _ => AwaitDrainCall)
  }

  /** Begin, then the polls, then the five effects. */
  function WholeTrace(polls: nat): seq<Call> {
    Drains(polls) + EFFECTS
  }

  function EffectsMade(call: Call): nat {
    match call
    case StartCall => 1
    case CompleteCall => 2
    case InvalidateCall => 3
    case ValidateCall => 4
    case ResumeCall => 5
    case _ => 0
  }

  /** How much of the whole trace has been made, for a cycle that has not failed. */
  function CallsMade(x: Cycle): nat {
    match x.pc
    case AtBeginDrain => 0
    case Waiting(call) => 1 + x.poll + EffectsMade(call)
    case Confirming(reply) => 1 + x.poll + EffectsMade(CallOf(reply))
    case AtBeginUpdate => 1 + x.poll
    case Tainting(call) => 1 + x.poll + EffectsMade(call)
    case Returned => 6 + x.poll
    case Failed(_) => |x.calls|
  }

  predicate Traced(x: Cycle) {
    && CallsMade(x) <= 6 + x.poll
    && 0 <= x.poll <= (if x.budget < 0 then 0 else x.budget)
    && x.sleeps <= (if x.poll == 0 then 0 else x.poll - 1)
    && x.calls == WholeTrace(x.poll)[..CallsMade(x)]
    && (x.pc.AtBeginDrain? || x.pc == Waiting(BeginDrainCall) ==> x.poll == 0)
    && ((x.pc.Waiting? && !x.pc.call.BeginDrainCall?) || x.pc.Confirming? || x.pc.AtBeginUpdate? ==> x.poll >= 1)
  }

  /** The i-th piece of evidence is of the kind due and says all that its gate asks, for this cycle's target. */
  predicate Passes(target: UpdateTarget, i: nat, reply: Reply) {
    match i
    case 0 =>
      reply.GotDrain? && reply.drain.engineDrainCompleted && reply.drain.engineActiveRequests in {None, Some(0)}
    case 1 =>
      && reply.GotUpdate? && reply.update.target == target
      && reply.update.weightsLoaded && reply.update.dataPlaneComplete && reply.update.finishAcknowledged
      && reply.update.observedIdentity in {None, Some(target.identity)}
    case 2 =>
      && reply.GotInvalidate? && reply.invalidate.prefixCacheReset
      && reply.invalidate.encoderCacheReset && reply.invalidate.mmCacheReset
    case 3 =>
      && reply.GotValidate? && reply.validate.target == target
      && reply.validate.observedEngineLabel == target.Label() && reply.validate.isPaused
      && reply.validate.cachesStillClean
    case _ =>
      && reply.GotResume? && reply.resume.target == target
      && reply.resume.resumeAcknowledged && !reply.resume.isPaused
      && (reply.resume.observedEngineLabel.Some? ==> reply.resume.observedEngineLabel.value == target.Label())
  }

  function Stage(pc: Pc): nat {
    match pc
    case AtBeginUpdate => 1
    case Waiting(call) => StageOf(call)
    case Tainting(call) => StageOf(call)
    case Confirming(reply) => StageOf(CallOf(reply))
    case Returned => 5
    case _ => 0
  }

  function StageOf(call: Call): nat {
    match call
    case StartCall => 1
    case CompleteCall => 1
    case InvalidateCall => 2
    case ValidateCall => 3
    case ResumeCall => 4
    case _ => 0
  }

  /** How many effects the accepted evidence entitles the runner to. */
  function Entitled(accepted: nat): nat {
    if accepted == 0 then 0 else if accepted <= 3 then accepted + 1 else 5
  }

  predicate Gated(x: Cycle) {
    && (!x.pc.Failed? ==> |x.accepted| == Stage(x.pc))
    && (forall i :: 0 <= i < |x.accepted| ==> Passes(x.target, i, x.accepted[i]))
    && |x.calls| <= 1 + x.poll + Entitled(|x.accepted|)
  }

  predicate Committing(before: Option<UpdateTarget>, x: Cycle) {
    && x.c.current == (if x.pc.Returned? then Some(x.target) else before)
    && (x.c.pending.Some? ==> x.c.pending == Some(x.target))
  }

  predicate CycleInv(before: Option<UpdateTarget>, x: Cycle) {
    Books(x.c) && Standing(before, x) && Tracking(x)
  }

  // ------------------------------------------------------------------ preservation

  lemma TraceGrows(polls: nat, n: nat)
    requires n < 6 + polls
    ensures |WholeTrace(polls)| == 6 + polls
    ensures WholeTrace(polls)[..n] + [WholeTrace(polls)[n]] == WholeTrace(polls)[..n + 1]
    ensures WholeTrace(polls)[0] == BeginDrainCall
    ensures forall i :: 0 <= i < 5 ==> WholeTrace(polls)[1 + polls + i] == EFFECTS[i]
  {
  }

  lemma TraceTakesAnotherPoll(polls: nat)
    ensures |WholeTrace(polls)| == 6 + polls
    ensures WholeTrace(polls)[..1 + polls] + [AwaitDrainCall] == WholeTrace(polls + 1)[..2 + polls]
  {
  }

  /** The three fields a cycle depends on. */
  predicate Became(d: Snapshot, state: LifecycleState, current: Option<UpdateTarget>, pending: Option<UpdateTarget>) {
    d.state == state && d.current == current && d.pending == pending
  }

  /** A controller call, as far as a cycle depends on it. */
  predicate Summary(c: Snapshot, cmd: Command, r: Result) {
    var (d, out) := r;
    match out
    case Raised(error) =>
      && (d == c || Became(d, TAINTED, c.current, None))
      && (!error.Taints() ==> d == c)
      && (error.Taints() ==> d.state == TAINTED)
      && (cmd.DoBeginDrain? ==> c.state != READY)
    case Bound(_) =>
      (cmd.DoAdmit? || cmd.DoFinish? || cmd.DoAbort?) && Became(d, c.state, c.current, c.pending)
    case Done =>
      match cmd
      case DoInitialize(ev) =>
        && ev.FailureReason().None? && ParseLabel(ev.observedEngineLabel) == Some(INITIAL_VERSION)
        && c.state == UNINITIALIZED
        && Became(d, READY, Some(UpdateTarget(INITIAL_VERSION, ev.weightIdentity)), c.pending)
      case DoBeginDrain => c.state == READY && Became(d, DRAINING, c.current, c.pending)
      case DoConfirmDrained(ev) =>
        ev.FailureReason().None? && c.state == DRAINING && Became(d, QUIESCED, c.current, c.pending)
      case DoBeginUpdate(t) => c.state == QUIESCED && Became(d, UPDATING, c.current, Some(t))
      case DoConfirmUpdated(ev) =>
        && ev.FailureReason().None? && Some(ev.target) == c.pending
        && c.state == UPDATING && Became(d, INVALIDATING, c.current, c.pending)
      case DoConfirmInvalidated(ev) =>
        ev.FailureReason().None? && c.state == INVALIDATING && Became(d, VALIDATING, c.current, c.pending)
      case DoConfirmValidated(ev) =>
        && ev.FailureReason().None? && Some(ev.target) == c.pending
        && c.state == VALIDATING && Became(d, RESUMING, c.current, c.pending)
      case DoConfirmResumed(ev) =>
        && ev.FailureReason().None? && Some(ev.target) == c.pending
        && c.state == RESUMING && Became(d, READY, c.pending, None)
      case _ => false
  }

  lemma RolloutCallsAreSummarised(c: Snapshot, cmd: Command)
    requires Books(c) && !Apply(c, cmd).1.Raised? && (cmd.DoAdmit? || cmd.DoFinish? || cmd.DoAbort? || cmd.DoTaint?)
    ensures Summary(c, cmd, Apply(c, cmd))
  {
  }

  lemma EntryCallsAreSummarised(c: Snapshot, cmd: Command)
    requires Books(c) && !Apply(c, cmd).1.Raised?
    requires cmd.DoInitialize? || cmd.DoBeginDrain? || cmd.DoConfirmDrained? || cmd.DoBeginUpdate?
    ensures Summary(c, cmd, Apply(c, cmd))
  {
  }

  lemma ConfirmationsAreSummarised(c: Snapshot, cmd: Command)
    requires Books(c) && !Apply(c, cmd).1.Raised?
    requires cmd.DoConfirmUpdated? || cmd.DoConfirmInvalidated? || cmd.DoConfirmValidated? || cmd.DoConfirmResumed?
    ensures Summary(c, cmd, Apply(c, cmd))
  {
  }

  lemma AcceptedCallsAreSummarised(c: Snapshot, cmd: Command)
    requires Books(c) && !Apply(c, cmd).1.Raised?
    ensures Summary(c, cmd, Apply(c, cmd))
  {
    if cmd.DoAdmit? || cmd.DoFinish? || cmd.DoAbort? || cmd.DoTaint? {
      RolloutCallsAreSummarised(c, cmd);
    } else if cmd.DoInitialize? || cmd.DoBeginDrain? || cmd.DoConfirmDrained? || cmd.DoBeginUpdate? {
      EntryCallsAreSummarised(c, cmd);
    } else {
      ConfirmationsAreSummarised(c, cmd);
    }
  }

  lemma CallsAreSummarised(c: Snapshot, cmd: Command)
    requires Books(c)
    ensures Summary(c, cmd, Apply(c, cmd)) && Books(Apply(c, cmd).0)
  {
    EveryChangeIsJournaled(c, cmd);
    if Apply(c, cmd).1.Raised? {
      RaisingShapes(c, cmd);
    } else {
      AcceptedCallsAreSummarised(c, cmd);
    }
  }

  predicate Tracking(x: Cycle) {
    Traced(x) && Gated(x)
  }

  predicate Standing(before: Option<UpdateTarget>, x: Cycle) {
    Placed(x) && Committing(before, x)
  }

  lemma MeddlingKeeps(before: Option<UpdateTarget>, x: Cycle, cmd: Command, r: Result)
    requires Standing(before, x) && Tracking(x) && Interferes(cmd) && Summary(x.c, cmd, r)
    ensures var y := x.(c := r.0); Standing(before, y) && Tracking(y)
  {
  }

  lemma CallsAreCounted(x: Cycle)
    requires Traced(x)
    ensures |x.calls| == CallsMade(x)
  {
    TraceGrows(x.poll, 0);
  }

  lemma AnsweringKeepsGated(x: Cycle, reply: Reply)
    requires Gated(x) && |x.calls| == CallsMade(x) && Enabled(x, Answering(reply)) && !x.pc.call.BootstrapCall?
    ensures Gated(Answer(x, reply))
  {
  }

  lemma AnsweringKeepsTrack(x: Cycle, reply: Reply)
    requires Tracking(x) && Enabled(x, Answering(reply)) && !x.pc.call.BootstrapCall?
    ensures Tracking(Answer(x, reply))
  {
    AnsweringKeepsTraced(x, reply);
    CallsAreCounted(x);
    AnsweringKeepsGated(x, reply);
  }

  lemma AnsweringKeepsStanding(before: Option<UpdateTarget>, x: Cycle, reply: Reply)
    requires Standing(before, x) && Enabled(x, Answering(reply))
    ensures Standing(before, Answer(x, reply))
  {
  }

  lemma RaisingKeepsStanding(before: Option<UpdateTarget>, x: Cycle, r: Result, early: bool)
    requires Standing(before, x) && CallsController(x.pc) && Summary(x.c, CommandAt(x), r)
    requires x.pc.Tainting? || r.1.Raised?
    ensures Standing(before, Heed(x, r, early))
  {
  }

  lemma AcceptingKeepsStanding(before: Option<UpdateTarget>, x: Cycle, r: Result, early: bool)
    requires Standing(before, x) && CallsController(x.pc) && Summary(x.c, CommandAt(x), r)
    requires !x.pc.Tainting? && !r.1.Raised?
    ensures Standing(before, Heed(x, r, early))
  {
  }

  lemma HeedingKeepsStanding(before: Option<UpdateTarget>, x: Cycle, r: Result, early: bool)
    requires Standing(before, x) && CallsController(x.pc) && Summary(x.c, CommandAt(x), r)
    ensures Standing(before, Heed(x, r, early))
  {
    if x.pc.Tainting? || r.1.Raised? {
      RaisingKeepsStanding(before, x, r, early);
    } else {
      AcceptingKeepsStanding(before, x, r, early);
    }
  }

  lemma DialKeepsTraced(x: Cycle, call: Call)
    requires Traced(x) && !x.pc.Failed? && CallsMade(x) < 6 + x.poll && WholeTrace(x.poll)[CallsMade(x)] == call
    requires call.BeginDrainCall? <==> x.pc.AtBeginDrain?
    requires !call.BeginDrainCall? ==> x.poll >= 1 && EffectsMade(call) == CallsMade(x) - x.poll
    ensures Traced(Dial(x, call))
  {
    TraceGrows(x.poll, CallsMade(x));
  }

  lemma PollKeepsTraced(x: Cycle, more: nat)
    requires Traced(x) && CallsMade(x) == 1 + x.poll && !x.pc.Failed?
    requires more <= (if 1 <= x.poll < x.budget then 1 else 0)
    ensures Traced(Poll(x.(sleeps := x.sleeps + more)))
  {
    TraceTakesAnotherPoll(x.poll);
  }

  lemma AnsweringKeepsTraced(x: Cycle, reply: Reply)
    requires Traced(x) && Enabled(x, Answering(reply)) && !x.pc.call.BootstrapCall?
    ensures Traced(Answer(x, reply))
  {
    CallsAreCounted(x);
    if reply.CoreError? || reply.ForeignError? {
    } else if x.pc.call.BeginDrainCall? {
      PollKeepsTraced(x, 0);
    } else if x.pc.call.StartCall? {
      TraceGrows(x.poll, 0);
      DialKeepsTraced(x, CompleteCall);
    }
  }

  lemma NextCallIsDue(x: Cycle)
    requires Traced(x) && CallsController(x.pc) && (x.pc.Confirming? ==> CycleReply(x.pc.reply)) && NextPc(x.pc).Waiting?
    ensures !x.pc.Failed? && CallsMade(x) < 6 + x.poll && WholeTrace(x.poll)[CallsMade(x)] == NextPc(x.pc).call
    ensures NextPc(x.pc).call.BeginDrainCall? <==> x.pc.AtBeginDrain?
    ensures x.pc.AtBeginDrain? || EffectsMade(NextPc(x.pc).call) == CallsMade(x) - x.poll
  {
    TraceGrows(x.poll, 0);
  }

  lemma StoppingKeepsTraced(x: Cycle, c: Snapshot, pc: Pc)
    requires Traced(x) && pc.Failed?
    ensures Traced(x.(c := c, pc := pc))
  {
    CallsAreCounted(x);
  }

  lemma RaisingKeepsTraced(x: Cycle, r: Result, early: bool)
    requires Traced(x) && CallsController(x.pc) && (x.pc.Confirming? ==> CycleReply(x.pc.reply))
    requires x.pc.Tainting? || r.1.Raised?
    ensures Traced(Heed(x, r, early))
  {
    if x.pc.Confirming? && x.pc.reply.GotDrain? && r.1 == Raised(EvidenceNotReady) {
      PollKeepsTraced(x.(c := r.0), if x.poll < x.budget && early then 1 else 0);
    } else {
      StoppingKeepsTraced(x, r.0, Heed(x, r, early).pc);
    }
  }

  lemma TracedIgnores(x: Cycle, c: Snapshot, accepted: seq<Reply>)
    requires Traced(x)
    ensures Traced(x.(c := c, accepted := accepted))
  {
  }

  /** A confirmation that no call follows: the drain's, and the last one. */
  lemma ArrivingKeepsTraced(x: Cycle, pc: Pc)
    requires Traced(x) && CallsController(x.pc) && (x.pc.Confirming? ==> CycleReply(x.pc.reply))
    requires !x.pc.Tainting? && pc == NextPc(x.pc) && !pc.Waiting?
    ensures Traced(x.(pc := pc))
  {
  }

  lemma AcceptingKeepsTraced(x: Cycle, r: Result, early: bool)
    requires Traced(x) && CallsController(x.pc) && (x.pc.Confirming? ==> CycleReply(x.pc.reply))
    requires !x.pc.Tainting? && !r.1.Raised?
    ensures Traced(Heed(x, r, early))
  {
    var next, y := NextPc(x.pc), Heed(x, r, early);
    var z := if next.Waiting? then Dial(x, next.call) else x.(pc := next);
    if next.Waiting? {
      NextCallIsDue(x);
      DialKeepsTraced(x, next.call);
    } else {
      ArrivingKeepsTraced(x, next);
    }
    TracedIgnores(z, y.c, y.accepted);
    assert y == z.(c := y.c, accepted := y.accepted);
  }

  lemma HeedingKeepsTraced(x: Cycle, r: Result, early: bool)
    requires Traced(x) && CallsController(x.pc) && (x.pc.Confirming? ==> CycleReply(x.pc.reply))
    ensures Traced(Heed(x, r, early))
  {
    if x.pc.Tainting? || r.1.Raised? {
      RaisingKeepsTraced(x, r, early);
    } else {
      AcceptingKeepsTraced(x, r, early);
    }
  }

  lemma RaisingKeepsGated(x: Cycle, r: Result, early: bool)
    requires Gated(x) && |x.calls| == CallsMade(x) && CallsController(x.pc) && (x.pc.Tainting? || r.1.Raised?)
    requires x.pc.Confirming? ==> CycleReply(x.pc.reply)
    ensures Gated(Heed(x, r, early))
  {
  }

  /** The evidence a confirmation is made with has passed its gate. */
  lemma ConfirmedEvidencePasses(x: Cycle, r: Result)
    requires CallsController(x.pc) && x.pc.Confirming? && CycleReply(x.pc.reply) && !r.1.Raised?
    requires Summary(x.c, CommandAt(x), r) && (x.c.pending.Some? ==> x.c.pending == Some(x.target))
    ensures Passes(x.target, StageOf(CallOf(x.pc.reply)), x.pc.reply)
  {
  }

  lemma AcceptingKeepsGated(before: Option<UpdateTarget>, x: Cycle, r: Result, early: bool)
    requires Standing(before, x) && Gated(x) && |x.calls| == CallsMade(x)
    requires x.pc.Confirming? && !r.1.Raised? && Summary(x.c, CommandAt(x), r)
    ensures Gated(Heed(x, r, early))
  {
    ConfirmedEvidencePasses(x, r);
    GatesGrow(x, r, early);
  }

  lemma GatesGrow(x: Cycle, r: Result, early: bool)
    requires Gated(x) && |x.calls| == CallsMade(x) && x.pc.Confirming? && CycleReply(x.pc.reply) && !r.1.Raised?
    requires Passes(x.target, StageOf(CallOf(x.pc.reply)), x.pc.reply)
    ensures Gated(Heed(x, r, early))
  {
  }

  lemma HeedingKeepsGated(before: Option<UpdateTarget>, x: Cycle, r: Result, early: bool)
    requires Standing(before, x) && Gated(x) && |x.calls| == CallsMade(x)
    requires CallsController(x.pc) && Summary(x.c, CommandAt(x), r)
    ensures Gated(Heed(x, r, early))
  {
    if x.pc.Tainting? || r.1.Raised? {
      RaisingKeepsGated(x, r, early);
    } else if x.pc.Confirming? {
      AcceptingKeepsGated(before, x, r, early);
    }
  }

  lemma GoingKeeps(before: Option<UpdateTarget>, x: Cycle, early: bool)
    requires CycleInv(before, x) && CallsController(x.pc)
    ensures CycleInv(before, Go(x, early))
  {
    var cmd := CommandAt(x);
    var r := Apply(x.c, cmd);
    CallsAreSummarised(x.c, cmd);
    HeedingKeepsStanding(before, x, r, early);
    HeedingKeepsTraced(x, r, early);
    CallsAreCounted(x);
    HeedingKeepsGated(before, x, r, early);
  }

  lemma StepKeeps(before: Option<UpdateTarget>, x: Cycle, l: Label)
    requires CycleInv(before, x)
    ensures CycleInv(before, Step(x, l))
  {
    if Enabled(x, l) {
      match l {
        case Going(early) => GoingKeeps(before, x, early);
        case Answering(reply) =>
          AnsweringKeepsStanding(before, x, reply);
          AnsweringKeepsTrack(x, reply);
        case Meddling(cmd) =>
          CallsAreSummarised(x.c, cmd);
          MeddlingKeeps(before, x, cmd, Apply(x.c, cmd));
      }
    }
  }

  lemma {:induction false} StepsKeep(c: Snapshot, target: UpdateTarget, budget: int, ls: seq<Label>)
    requires Books(c) && c.state == READY
    ensures var x := Steps(Begin(c, target, budget), ls);
      CycleInv(c.current, x) && x.target == target && x.budget == budget
  {
    if ls == [] {
      assert WholeTrace(0)[..0] == [];
    } else {
      StepsKeep(c, target, budget, ls[..|ls| - 1]);
      StepKeeps(c.current, Steps(Begin(c, target, budget), ls[..|ls| - 1]), ls[|ls| - 1]);
    }
  }

  // --------------------------------------------------------------- undisturbed runs

  /** No other thread taints; the runner itself still may. */
  predicate Undisturbed(ls: seq<Label>) {
    forall i :: 0 <= i < |ls| ==> !(ls[i].Meddling? && ls[i].cmd.DoTaint?)
  }

  function EventOf(cmd: Command): Option<Event> {
    match cmd
    case DoInitialize(_) => Some(INITIALIZE)
    case DoBeginDrain => Some(BEGIN_DRAIN)
    case DoConfirmDrained(_) => Some(CONFIRM_DRAINED)
    case DoBeginUpdate(_) => Some(BEGIN_UPDATE)
    case DoConfirmUpdated(_) => Some(CONFIRM_UPDATED)
    case DoConfirmInvalidated(_) => Some(CONFIRM_INVALIDATED)
    case DoConfirmValidated(_) => Some(CONFIRM_VALIDATED)
    case DoConfirmResumed(_) => Some(CONFIRM_RESUMED)
    case _ => None
  }

  /** Which errors a transition can raise from a state where it is legal. */
  predicate Blames(c: Snapshot, cmd: Command, out: Outcome) {
    out.Raised? && EventOf(cmd).Some? && NextState(c.state, EventOf(cmd).value).Some? ==>
      || out.error.Taints()
      || (cmd.DoConfirmDrained? && out.error == EvidenceNotReady)
      || (cmd.DoBeginUpdate? && out.error == InvariantViolation(I1_MONOTONIC) && c.current.Some?
          && cmd.target.version.value <= c.current.value.version.value)
  }

  lemma LegalCallsBlame(c: Snapshot, cmd: Command)
    requires Books(c)
    ensures Blames(c, cmd, Apply(c, cmd).1)
  {
  }

  /** Where a failure leaves the controller. */
  predicate Stranded(x: Cycle, why: Failure) {
    match why
    case AdapterBroke(call) => x.c.state == (if call in {AwaitDrainCall, ValidateCall} then StateFor(call) else TAINTED)
    case AdapterRaised(call) => x.c.state == StateFor(call)
    case BudgetSpent => x.c.state == DRAINING
    case FromController(error) =>
      if error.Taints() then x.c.state == TAINTED
      else
        && x.c.state == QUIESCED && error == InvariantViolation(I1_MONOTONIC)
        && x.c.current.Some? && x.target.version.value <= x.c.current.value.version.value
  }

  predicate Calm(x: Cycle) {
    match x.pc
    case AtBeginDrain => x.c.state == READY
    case Waiting(call) => !call.BootstrapCall? && x.c.state == StateFor(call)
    case Confirming(reply) => CycleReply(reply) && x.c.state == StateFor(CallOf(reply))
    case AtBeginUpdate => x.c.state == QUIESCED
    case Tainting(call) => !Observes(call) && !call.BootstrapCall? && x.c.state == StateFor(call)
    case Returned => x.c.state == READY
    case Failed(why) => Stranded(x, why)
  }

  lemma HeedingStaysCalm(x: Cycle, r: Result, early: bool)
    requires Calm(x) && CallsController(x.pc) && x.c.current.Some?
    requires Summary(x.c, CommandAt(x), r) && Blames(x.c, CommandAt(x), r.1)
    requires x.pc.Tainting? ==> r.0.state == TAINTED
    ensures Calm(Heed(x, r, early))
  {
  }

  lemma StepStaysCalm(x: Cycle, l: Label)
    requires Books(x.c) && Calm(x) && x.c.current.Some? && Undisturbed([l])
    ensures Calm(Step(x, l))
  {
    assert [l][0] == l;
    if Enabled(x, l) {
      match l {
        case Going(early) =>
          var cmd := CommandAt(x);
          CallsAreSummarised(x.c, cmd);
          LegalCallsBlame(x.c, cmd);
          HeedingStaysCalm(x, Apply(x.c, cmd), early);
        case Answering(reply) =>
        case Meddling(cmd) => CallsAreSummarised(x.c, cmd);
      }
    }
  }

  lemma {:induction false} StepsStayCalm(c: Snapshot, target: UpdateTarget, budget: int, ls: seq<Label>)
    requires Books(c) && c.state == READY && Undisturbed(ls)
    ensures Calm(Steps(Begin(c, target, budget), ls))
  {
    if ls != [] {
      var front := ls[..|ls| - 1];
      StepsKeep(c, target, budget, front);
      StepsStayCalm(c, target, budget, front);
      StepStaysCalm(Steps(Begin(c, target, budget), front), ls[|ls| - 1]);
    }
  }

  // ------------------------------------------------------------------- main results

  /**
    * All or nothing: for any replies and any interference, a cycle from READY has committed exactly
    * its target once it returns, and otherwise the old target still stands and nothing is served.
    */
  lemma AllOrNothing(c: Snapshot, target: UpdateTarget, budget: int, ls: seq<Label>)
    requires Books(c) && c.state == READY
    ensures var x := Steps(Begin(c, target, budget), ls);
      && (x.pc.Returned? ==> x.c.current == Some(target) && x.c.state in {READY, TAINTED})
      && (!x.pc.Returned? ==> x.c.current == c.current)
      && (x.pc.Failed? ==> x.c.state != READY)
      && (x.c.state == READY ==> x.pc in {AtBeginDrain, Returned})
    ensures var x := Steps(Begin(c, target, budget), ls);
      Undisturbed(ls) ==>
        && (x.pc.Returned? ==> x.c.state == READY)
        && (x.pc.Failed? ==> Stranded(x, x.pc.why))
  {
    StepsKeep(c, target, budget, ls);
    if Undisturbed(ls) {
      StepsStayCalm(c, target, budget, ls);
    }
  }

  /**
    * A foreign failure of a poll or a validation is passed on with the controller as it was; of any
    * other call it taints first. A failure of the protocol's own kind is always just passed on.
    */
  lemma FailuresByCall(x: Cycle)
    requires x.pc.Waiting?
    ensures var y := Steps(x, [Answering(ForeignError), Going(false)]);
      && y.pc == Failed(AdapterBroke(x.pc.call))
      && (if x.pc.call in {AwaitDrainCall, ValidateCall} || x.c.state == TAINTED then y.c == x.c
          else y.c.state == TAINTED && y.c.taintReason == Some(Told("unknown engine outcome")))
    ensures Steps(x, [Answering(CoreError), Going(false)]) == x.(pc := Failed(AdapterRaised(x.pc.call)))
  {
    TwoSteps(x, Answering(ForeignError), Going(false));
    TwoSteps(x, Answering(CoreError), Going(false));
  }

  // Polling: a drain that is not completed is asked for again, as long as the budget lasts.

  /** One poll answered with an incomplete drain; `early` is the clock reading that allows a sleep after it. */
  datatype Unready = Unready(active: Option<int>, early: bool)

  function PollsOf(polls: seq<Unready>): seq<Label> {
    if polls == [] then []
    else
      var last := polls[|polls| - 1];
      PollsOf(polls[..|polls| - 1]) + [Answering(GotDrain(DrainEvidence(false, last.active))), Going(last.early)]
  }

  function Earlies(polls: seq<Unready>): nat {
    if polls == [] then 0 else Earlies(polls[..|polls| - 1]) + if polls[|polls| - 1].early then 1 else 0
  }

  /** The drain has been begun, and these polls have been answered. */
  function Drained(c: Snapshot, target: UpdateTarget, budget: int, polls: seq<Unready>): Cycle {
    Steps(Begin(c, target, budget), [Going(false), Answering(Acked)] + PollsOf(polls))
  }

  lemma UnreadyIsHeeded(x: Cycle, active: Option<int>, early: bool)
    requires x.pc == Confirming(GotDrain(DrainEvidence(false, active))) && x.c.state == DRAINING
    ensures Go(x, early) == Poll(x.(sleeps := x.sleeps + if x.poll < x.budget && early then 1 else 0))
  {
  }

  lemma OnePoll(x: Cycle, poll: Unready)
    requires x.pc == Waiting(AwaitDrainCall) && x.c.state == DRAINING
    ensures Steps(x, PollsOf([poll])) == Polled(x, poll)
  {
    var reply := GotDrain(DrainEvidence(false, poll.active));
    assert [poll][..0] == [] && PollsOf([]) == [];
    assert PollsOf([poll]) == [Answering(reply), Going(poll.early)];
    TwoSteps(x, Answering(reply), Going(poll.early));
    var y := Step(x, Answering(reply));
    assert y == x.(pc := Confirming(reply));
    UnreadyIsHeeded(y, poll.active, poll.early);
  }

  /** The next poll is out after a sleep if there was time for one, or the budget is spent. */
  function Polled(x: Cycle, poll: Unready): Cycle {
    if x.poll < x.budget
    then x.(poll := x.poll + 1, sleeps := x.sleeps + (if poll.early then 1 else 0), calls := x.calls + [AwaitDrainCall],
            pc := Waiting(AwaitDrainCall))
    else x.(pc := Failed(BudgetSpent))
  }

  lemma DrainBegins(c: Snapshot, target: UpdateTarget, budget: int)
    requires c.state == READY && c.current.Some?
    ensures var x := Drained(c, target, budget, []);
      && x.c == BeginDrain(c).0 && x.c.state == DRAINING && x.budget == budget && x.sleeps == 0
      && x.pc == (if budget < 1 then Failed(BudgetSpent) else Waiting(AwaitDrainCall))
      && x.poll == (if budget < 1 then 0 else 1)
  {
    assert [Going(false), Answering(Acked)] + PollsOf([]) == [Going(false), Answering(Acked)];
    TwoSteps(Begin(c, target, budget), Going(false), Answering(Acked));
  }

  lemma MorePolls(c: Snapshot, target: UpdateTarget, budget: int, polls: seq<Unready>, poll: Unready)
    ensures Drained(c, target, budget, polls + [poll]) == Steps(Drained(c, target, budget, polls), PollsOf([poll]))
  {
    var start, more := [Going(false), Answering(Acked)], PollsOf([poll]);
    assert (polls + [poll])[..|polls|] == polls && [poll][..0] == [] && PollsOf([]) == [];
    assert start + PollsOf(polls + [poll]) == (start + PollsOf(polls)) + more;
    StepsAppend(Begin(c, target, budget), start + PollsOf(polls), more);
  }

  /** Fewer unready polls than the budget: the controller still drains, and the next poll is out. */
  lemma {:induction false} UnreadyPollsGoOn(c: Snapshot, target: UpdateTarget, budget: int, polls: seq<Unready>)
    requires c.state == READY && c.current.Some? && |polls| < budget
    ensures var x := Drained(c, target, budget, polls);
      && x.pc == Waiting(AwaitDrainCall) && x.c == BeginDrain(c).0 && x.c.state == DRAINING && x.budget == budget
      && x.poll == |polls| + 1 && x.sleeps == Earlies(polls)
  {
    if polls == [] {
      DrainBegins(c, target, budget);
    } else {
      var front, last := polls[..|polls| - 1], polls[|polls| - 1];
      assert polls == front + [last];
      UnreadyPollsGoOn(c, target, budget, front);
      MorePolls(c, target, budget, front, last);
      OnePoll(Drained(c, target, budget, front), last);
    }
  }

  /** As many as the budget: it is spent, the drain can be retried, and nobody slept after the last poll. */
  lemma BudgetRunsOut(c: Snapshot, target: UpdateTarget, budget: int, polls: seq<Unready>)
    requires c.state == READY && c.current.Some? && |polls| == (if budget < 0 then 0 else budget)
    ensures var x := Drained(c, target, budget, polls);
      && x.pc == Failed(BudgetSpent) && x.c == BeginDrain(c).0 && x.c.state == DRAINING
      && x.poll == |polls| && x.sleeps == (if polls == [] then 0 else Earlies(polls[..|polls| - 1]))
  {
    if polls == [] {
      DrainBegins(c, target, budget);
    } else {
      var front, last := polls[..|polls| - 1], polls[|polls| - 1];
      assert polls == front + [last];
      UnreadyPollsGoOn(c, target, budget, front);
      MorePolls(c, target, budget, front, last);
      OnePoll(Drained(c, target, budget, front), last);
    }
  }

  // An adapter whose evidence passes every gate: the cycle goes through.

  /** One answer per piece of evidence, in the order of the gates. */
  predicate AllPass(target: UpdateTarget, replies: seq<Reply>) {
    |replies| == 5 && forall i :: 0 <= i < 5 ==> Passes(target, i, replies[i])
  }

  function Round(reply: Reply): seq<Label> {
    [Answering(reply), Going(false)]
  }

  function BeginningSchedule(reply: Reply): seq<Label> {
    [Going(false), Answering(Acked)] + Round(reply) + [Going(false), Answering(Acked)]
  }

  function PassingSchedule(replies: seq<Reply>): seq<Label>
    requires |replies| == 5
  {
    BeginningSchedule(replies[0]) + Round(replies[1]) + Round(replies[2]) + Round(replies[3]) + Round(replies[4])
  }

  predicate OnCourse(x: Cycle, call: Call, target: UpdateTarget) {
    && x.pc == Waiting(call) && x.c.state == StateFor(call) && x.target == target && x.c.active == []
    && (EffectsMade(call) >= 1 ==> x.c.pending == Some(target))
  }

  lemma {:induction false} StepsAppend(x: Cycle, ls: seq<Label>, more: seq<Label>)
    ensures Steps(x, ls + more) == Steps(Steps(x, ls), more)
  {
    if more == [] {
      assert ls + more == ls;
    } else {
      var front := more[..|more| - 1];
      StepsAppend(x, ls, front);
      assert (ls + more)[..|ls + more| - 1] == ls + front;
    }
  }

  lemma TwoSteps(x: Cycle, a: Label, b: Label)
    ensures Steps(x, [a, b]) == Step(Step(x, a), b)
  {
    assert [a, b][..1] == [a] && [a][..0] == [];
    assert Steps(x, [a]) == Step(x, a);
  }

  /** Where a round of an effect with passing evidence leads. */
  predicate Reaches(y: Cycle, call: Call, target: UpdateTarget) {
    match call
    case CompleteCall => OnCourse(y, InvalidateCall, target)
    case InvalidateCall => OnCourse(y, ValidateCall, target)
    case ValidateCall => OnCourse(y, ResumeCall, target)
    case _ => y.pc.Returned? && y.c.state == READY && y.c.current == Some(target) && y.c.active == []
  }

  lemma LoadingAdvances(x: Cycle, target: UpdateTarget, reply: Reply)
    requires OnCourse(x, CompleteCall, target) && Passes(target, 1, reply)
    ensures Reaches(Steps(x, Round(reply)), CompleteCall, target)
  {
    TwoSteps(x, Answering(reply), Going(false));
  }

  lemma InvalidationAdvances(x: Cycle, target: UpdateTarget, reply: Reply)
    requires OnCourse(x, InvalidateCall, target) && Passes(target, 2, reply)
    ensures Reaches(Steps(x, Round(reply)), InvalidateCall, target)
  {
    TwoSteps(x, Answering(reply), Going(false));
  }

  lemma ValidationAdvances(x: Cycle, target: UpdateTarget, reply: Reply)
    requires OnCourse(x, ValidateCall, target) && Passes(target, 3, reply)
    ensures Reaches(Steps(x, Round(reply)), ValidateCall, target)
  {
    TwoSteps(x, Answering(reply), Going(false));
  }

  lemma ResumptionAdvances(x: Cycle, target: UpdateTarget, reply: Reply)
    requires OnCourse(x, ResumeCall, target) && Passes(target, 4, reply)
    ensures Reaches(Steps(x, Round(reply)), ResumeCall, target)
  {
    TwoSteps(x, Answering(reply), Going(false));
  }

  lemma EffectAdvances(x: Cycle, call: Call, target: UpdateTarget, reply: Reply)
    requires call in {CompleteCall, InvalidateCall, ValidateCall, ResumeCall}
    requires OnCourse(x, call, target) && Passes(target, StageOf(call), reply)
    ensures Reaches(Steps(x, Round(reply)), call, target)
  {
    match call {
      case CompleteCall => LoadingAdvances(x, target, reply);
      case InvalidateCall => InvalidationAdvances(x, target, reply);
      case ValidateCall => ValidationAdvances(x, target, reply);
      case ResumeCall => ResumptionAdvances(x, target, reply);
    }
  }

  lemma EffectsAdvance(x: Cycle, ls: seq<Label>, call: Call, target: UpdateTarget, reply: Reply)
    requires call in {CompleteCall, InvalidateCall, ValidateCall, ResumeCall}
    requires OnCourse(Steps(x, ls), call, target) && Passes(target, StageOf(call), reply)
    ensures Reaches(Steps(x, ls + Round(reply)), call, target)
  {
    StepsAppend(x, ls, Round(reply));
    EffectAdvances(Steps(x, ls), call, target, reply);
  }

  lemma DrainAdvances(c: Snapshot, target: UpdateTarget, budget: int)
    requires c.state == READY && c.current.Some? && c.active == [] && budget >= 1
    ensures var x := Steps(Begin(c, target, budget), [Going(false), Answering(Acked)]);
      OnCourse(x, AwaitDrainCall, target) && x.c.current == c.current
  {
    TwoSteps(Begin(c, target, budget), Going(false), Answering(Acked));
  }

  lemma QuiescenceAdvances(x: Cycle, target: UpdateTarget, reply: Reply)
    requires OnCourse(x, AwaitDrainCall, target) && Passes(target, 0, reply)
    ensures var y := Steps(x, Round(reply));
      y.pc.AtBeginUpdate? && y.c.state == QUIESCED && y.c.current == x.c.current && y.c.active == [] && y.target == target
  {
    TwoSteps(x, Answering(reply), Going(false));
  }

  lemma OpeningAdvances(y: Cycle, target: UpdateTarget)
    requires y.pc.AtBeginUpdate? && y.c.state == QUIESCED && y.c.active == [] && y.target == target && y.c.current.Some?
    requires target.version.value > y.c.current.value.version.value
    ensures OnCourse(Steps(y, [Going(false), Answering(Acked)]), CompleteCall, target)
  {
    TwoSteps(y, Going(false), Answering(Acked));
  }

  /** Drained, quiesced, begun: the transfer is out. */
  lemma PassingDrainsBegin(c: Snapshot, target: UpdateTarget, budget: int, reply: Reply)
    requires c.state == READY && c.active == [] && budget >= 1 && Passes(target, 0, reply)
    requires c.current.Some? && target.version.value > c.current.value.version.value
    ensures OnCourse(Steps(Begin(c, target, budget), BeginningSchedule(reply)), CompleteCall, target)
  {
    var start, x := [Going(false), Answering(Acked)], Begin(c, target, budget);
    DrainAdvances(c, target, budget);
    var drained := start + Round(reply);
    StepsAppend(x, start, Round(reply));
    QuiescenceAdvances(Steps(x, start), target, reply);
    StepsAppend(x, drained, start);
    OpeningAdvances(Steps(x, drained), target);
  }

  /** With nobody in flight, a newer target, one poll and evidence that passes every gate, the cycle commits. */
  lemma PassingCyclesCommit(c: Snapshot, target: UpdateTarget, budget: int, replies: seq<Reply>)
    requires c.state == READY && c.active == [] && budget >= 1 && AllPass(target, replies)
    requires c.current.Some? && target.version.value > c.current.value.version.value
    ensures var x := Steps(Begin(c, target, budget), PassingSchedule(replies));
      x.pc.Returned? && x.c.state == READY && x.c.current == Some(target)
  {
    var x, begun := Begin(c, target, budget), BeginningSchedule(replies[0]);
    PassingDrainsBegin(c, target, budget, replies[0]);
    EffectsAdvance(x, begun, CompleteCall, target, replies[1]);
    var loaded := begun + Round(replies[1]);
    EffectsAdvance(x, loaded, InvalidateCall, target, replies[2]);
    var clean := loaded + Round(replies[2]);
    EffectsAdvance(x, clean, ValidateCall, target, replies[3]);
    EffectsAdvance(x, clean + Round(replies[3]), ResumeCall, target, replies[4]);
  }

  /** A cycle to the next generation fails in the controller only by tainting it. */
  lemma NextGenerationIsNeverStale(c: Snapshot, identity: Option<WeightIdentity>, budget: int, ls: seq<Label>)
    requires Books(c) && c.state == READY && Undisturbed(ls)
    ensures NextTarget(c, identity).Some?
    ensures var x := Steps(Begin(c, NextTarget(c, identity).value, budget), ls);
      x.pc.Failed? && x.pc.why.FromController? ==> x.pc.why.error.Taints()
  {
    AllOrNothing(c, NextTarget(c, identity).value, budget, ls);
    StepsKeep(c, NextTarget(c, identity).value, budget, ls);
  }

  /** The adapter sees a prefix of drain, polls, effects; the resume only after four passed gates. */
  lemma FailClosedTrace(c: Snapshot, target: UpdateTarget, budget: int, ls: seq<Label>)
    requires Books(c) && c.state == READY
    ensures var x := Steps(Begin(c, target, budget), ls);
      && x.calls <= WholeTrace(x.poll)
      && (x.pc.Returned? ==> x.calls == WholeTrace(x.poll))
      && x.poll <= (if budget < 0 then 0 else budget)
      && x.sleeps <= (if x.poll == 0 then 0 else x.poll - 1)
      && (x.pc.Waiting? ==> x.c.state == StateFor(x.pc.call) || x.c.state == TAINTED)
      && (x.pc.Waiting? && Undisturbed(ls) ==> x.c.state == StateFor(x.pc.call))
      && (ResumeCall in x.calls ==>
            |x.accepted| >= 4 && forall i :: 0 <= i < 4 ==> Passes(target, i, x.accepted[i]))
  {
    StepsKeep(c, target, budget, ls);
    var x := Steps(Begin(c, target, budget), ls);
    CallsAreCounted(x);
    TraceGrows(x.poll, 0);
    if Undisturbed(ls) {
      StepsStayCalm(c, target, budget, ls);
    }
    if ResumeCall in x.calls {
      ResumeIsTheLastCall(x.poll, |x.calls|);
    }
  }

  lemma ResumeIsTheLastCall(polls: nat, n: nat)
    requires n <= 6 + polls && |WholeTrace(polls)| == 6 + polls && ResumeCall in WholeTrace(polls)[..n]
    ensures n == 6 + polls
  {
    var i :| 0 <= i < n && WholeTrace(polls)[i] == ResumeCall;
    assert i > polls ==> WholeTrace(polls)[i] == EFFECTS[i - 1 - polls];
  }

  /** The drain is over for the runner: it polls no more. */
  predicate PastPolling(x: Cycle) {
    match x.pc
    case AtBeginDrain => false
    case Waiting(call) => !call.BeginDrainCall? && !call.AwaitDrainCall?
    case Confirming(GotDrain(ev)) => ev.engineDrainCompleted
    case _ => true
  }

  predicate SamePolls(x: Cycle, y: Cycle) {
    y.poll == x.poll && y.sleeps == x.sleeps
  }

  lemma CompletedDrainsAreReady(c: Snapshot, ev: DrainEvidence)
    requires ev.engineDrainCompleted
    ensures ConfirmDrained(c, ev).1 != Raised(EvidenceNotReady)
    ensures ConfirmDrained(c, ev).1.Done? ==> c.active == []
  {
  }

  lemma GoingPollsNoMore(x: Cycle, early: bool)
    requires PastPolling(x) && CallsController(x.pc)
    ensures PastPolling(Go(x, early)) && SamePolls(x, Go(x, early))
  {
    if x.pc.Confirming? && x.pc.reply.GotDrain? {
      CompletedDrainsAreReady(x.c, x.pc.reply.drain);
    }
  }

  lemma StepPollsNoMore(x: Cycle, l: Label)
    requires PastPolling(x)
    ensures PastPolling(Step(x, l)) && SamePolls(x, Step(x, l))
  {
    if Enabled(x, l) && l.Going? {
      GoingPollsNoMore(x, l.early);
    }
  }

  /**
    * Once a poll has answered that the drain is completed, the runner neither polls nor sleeps again,
    * whatever happens after; and it goes on to the update only if no rollout is active.
    */
  lemma {:induction false} CompletedPollIsTheLast(x: Cycle, reply: Reply, ls: seq<Label>)
    requires x.pc == Waiting(AwaitDrainCall) && reply.GotDrain? && reply.drain.engineDrainCompleted
    ensures SamePolls(x, Steps(Answer(x, reply), ls)) && PastPolling(Steps(Answer(x, reply), ls))
    ensures ConfirmDrained(x.c, reply.drain).1.Done? ==> x.c.active == []
  {
    if ls != [] {
      CompletedPollIsTheLast(x, reply, ls[..|ls| - 1]);
      StepPollsNoMore(Steps(Answer(x, reply), ls[..|ls| - 1]), ls[|ls| - 1]);
    }
    CompletedDrainsAreReady(x.c, reply.drain);
  }

  function Remaining(x: Cycle): int {
    4 * (6 + (if x.budget < 0 then 0 else x.budget) - |x.calls|)
    + match x.pc
      case Waiting(_) => 3
      case Confirming(_) => 2
      case Returned => 0
      case Failed(_) => 0
      case _ => 1
  }

  predicate Moves(x: Cycle, l: Label) {
    Enabled(x, l) && !l.Meddling?
  }

  lemma HeedingShortens(x: Cycle, r: Result, early: bool)
    requires CallsController(x.pc)
    ensures Remaining(Heed(x, r, early)) < Remaining(x)
  {
  }

  lemma EveryMoveShortens(x: Cycle, l: Label)
    ensures if Moves(x, l) then Remaining(Step(x, l)) < Remaining(x) else Remaining(Step(x, l)) == Remaining(x)
  {
    if l.Going? && Enabled(x, l) {
      HeedingShortens(x, Apply(x.c, CommandAt(x)), l.early);
    }
  }

  lemma RemainingIsBounded(x: Cycle)
    requires Traced(x)
    ensures 0 <= Remaining(x)
  {
    CallsAreCounted(x);
  }

  function MovesIn(x: Cycle, ls: seq<Label>): nat {
    if ls == [] then 0
    else MovesIn(x, ls[..|ls| - 1]) + if Moves(Steps(x, ls[..|ls| - 1]), ls[|ls| - 1]) then 1 else 0
  }

  /** Whatever the schedule, the runner's thread makes a bounded number of moves. */
  lemma {:induction false} CyclesTerminate(c: Snapshot, target: UpdateTarget, budget: nat, ls: seq<Label>)
    requires Books(c) && c.state == READY
    ensures var x := Begin(c, target, budget);
      MovesIn(x, ls) + Remaining(Steps(x, ls)) <= 4 * (6 + budget) + 1 && 0 <= Remaining(Steps(x, ls))
  {
    var x := Begin(c, target, budget);
    StepsKeep(c, target, budget, ls);
    RemainingIsBounded(Steps(x, ls));
    if ls != [] {
      CyclesTerminate(c, target, budget, ls[..|ls| - 1]);
      EveryMoveShortens(Steps(x, ls[..|ls| - 1]), ls[|ls| - 1]);
    }
  }
}

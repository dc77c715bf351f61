/** Pause attempts on background threads, and the pollers that read, abort and reissue. */
module HttpDrain {
  import opened Prelude
  import opened Evidence

  datatype DrainState = IDLE | IN_FLIGHT | FAILED | COMPLETED

  /** One pause thread: the attempt number it carries, and the `begin_drain` call it belongs to. */
  datatype Thread = Thread(session: nat, attempt: nat)

  /**
    * The adapter's drain fields, plus history: which threads still run and how the others ended,
    * None for a pause that returned and the exception's text otherwise.
    */
  datatype Drain = Drain(
    state: DrainState, error: Option<string>, attempts: nat,
    session: nat, running: set<Thread>, ended: map<Thread, Option<string>>)
  {
    function Newest(): Thread {
      Thread(session, attempts)
    }

    function Mine(k: nat): Thread {
      Thread(session, k)
    }

    /** The k-th attempt of this session is over and failed. */
    predicate FailedAttempt(k: nat) {
      Mine(k) in ended && ended[Mine(k)].Some?
    }
  }

  const UNUSED := Drain(IDLE, None, 0, 0, {}, map[])

  // ------------------------------------------------------------ sections under the lock

  /** `_start_attempt`. */
  function Launch(d: Drain): Drain {
    var attempt := d.attempts + 1;
    d.(attempts := attempt, state := IN_FLIGHT, running := d.running + {d.Mine(attempt)})
  }

  /** The first section of `begin_drain`. */
  function Reset(d: Drain): Drain {
    d.(attempts := 0, session := d.session + 1)
  }

  /** `begin_drain` with no poll between its two sections; what a poll there can see is said below. */
  function Open(d: Drain): Drain {
    Launch(Reset(d))
  }

  /** The end of `_pause_attempt`: a superseded verdict is dropped. */
  function End(d: Drain, who: Thread, error: Option<string>): Drain {
    var over := d.(running := d.running - {who}, ended := d.ended[who := error]);
    if who.attempt != d.attempts then over
    else over.(state := if error.None? then COMPLETED else FAILED, error := error)
  }

  // -------------------------------------------------------------------------- pollers

  /** `drain_reissues` and `abort_retries`, any integers. */
  datatype Limits = Limits(reissues: int, retries: int)

  /** Where one `await_drain` stands. */
  datatype Poller =
    | Fresh
    | Aborting(attempts: nat, error: Option<string>, left: nat)
    | Deciding(attempts: nat, error: Option<string>)
    | Reported(evidence: DrainEvidence)
    | GaveUp(attempts: nat, error: Option<string>)  // DrainFailedError
    | Broke                                         // a foreign exception out of an abort

  datatype AbortReply = Accepted | Rejected | Exploded

  predicate Busy(p: Poller) {
    p.Aborting? || p.Deciding?
  }

  /** The locked read and the branch on it. */
  function Look(lim: Limits, d: Drain): Poller {
    match d.state
    case COMPLETED => Reported(DrainEvidence(true, None))
    case IN_FLIGHT => Reported(DrainEvidence(false, None))
    case IDLE => Reported(DrainEvidence(false, None))
    case FAILED =>
      if lim.retries > 0 then Aborting(d.attempts, d.error, lim.retries) else Deciding(d.attempts, d.error)
  }

  /** One round of `_abort_all`. */
  function AbortOnce(p: Poller, reply: AbortReply): Poller
    requires p.Aborting?
  {
    match reply
    case Accepted => Deciding(p.attempts, p.error)
    case Rejected => if p.left > 1 then p.(left := p.left - 1) else Deciding(p.attempts, p.error)
    case Exploded => Broke
  }

  function Decide(lim: Limits, d: Drain, p: Poller): (Drain, Poller)
    requires p.Deciding?
  {
    if p.attempts > lim.reissues then (d, GaveUp(p.attempts, p.error))
    else (Launch(d), Reported(DrainEvidence(false, None)))
  }

  datatype Move =
    | Ends(who: Thread, error: Option<string>)
    | Looks(p: nat)
    | Aborts(p: nat, reply: AbortReply)
    | Decides(p: nat)

  datatype World = World(d: Drain, pollers: seq<Poller>)

  function Next(lim: Limits, w: World, m: Move): World {
    match m
    case Ends(who, error) => if who in w.d.running then w.(d := End(w.d, who, error)) else w
    case Looks(p) =>
      if p < |w.pollers| && !Busy(w.pollers[p]) then w.(pollers := w.pollers[p := Look(lim, w.d)]) else w
    case Aborts(p, reply) =>
      if p < |w.pollers| && w.pollers[p].Aborting?
      then w.(pollers := w.pollers[p := AbortOnce(w.pollers[p], reply)]) else w
    case Decides(p) =>
      if p < |w.pollers| && w.pollers[p].Deciding? then
        var (d, after) := Decide(lim, w.d, w.pollers[p]);
        World(d, w.pollers[p := after])
      else w
  }

  function After(lim: Limits, w: World, ms: seq<Move>): World {
    if ms == [] then w else Next(lim, After(lim, w, ms[..|ms| - 1]), ms[|ms| - 1])
  }

  /** A drain just begun, with pollers that have yet to look. */
  function Opened(d: Drain, pollers: nat): World {
    World(Open(d), seq(pollers, _ => Fresh))
  }

  lemma AfterOneMore(lim: Limits, w: World, ms: seq<Move>, m: Move)
    ensures After(lim, w, ms + [m]) == Next(lim, After(lim, w, ms), m)
  {
    assert (ms + [m])[..|ms|] == ms;
  }

  lemma {:induction false} AfterAppend(lim: Limits, w: World, ms: seq<Move>, more: seq<Move>)
    ensures After(lim, w, ms + more) == After(lim, After(lim, w, ms), more)
  {
    if more == [] {
      assert ms + more == ms;
    } else {
      var front := more[..|more| - 1];
      AfterAppend(lim, w, ms, front);
      assert ms + more == (ms + front) + [more[|more| - 1]];
      AfterOneMore(lim, w, ms + front, more[|more| - 1]);
    }
  }

  // ------------------------------------------------------- one poll, nobody in between

  function Rejections(i: nat, n: nat): seq<Move> {
    seq(n, _ => Aborts(i, Rejected))
  }

  /** Where the poller of a failed drain stands after n rejections. */
  function AfterRejections(lim: Limits, d: Drain, n: nat): Poller {
    if n < lim.retries then Aborting(d.attempts, d.error, lim.retries - n) else Deciding(d.attempts, d.error)
  }

  lemma OneRejection(lim: Limits, w: World, i: nat, n: nat)
    requires i < |w.pollers| && w.pollers[i] == AfterRejections(lim, w.d, n) && n < lim.retries
    ensures Next(lim, w, Aborts(i, Rejected)) == World(w.d, w.pollers[i := AfterRejections(lim, w.d, n + 1)])
  {
  }

  lemma FailureIsRead(lim: Limits, w: World, i: nat)
    requires i < |w.pollers| && !Busy(w.pollers[i]) && w.d.state == FAILED
    ensures After(lim, w, [] + [Looks(i)]) == World(w.d, w.pollers[i := AfterRejections(lim, w.d, 0)])
  {
    AfterOneMore(lim, w, [], Looks(i));
  }

  lemma RejectedOnceMore(lim: Limits, w: World, ms: seq<Move>, i: nat, n: nat)
    requires i < |w.pollers| && n < lim.retries
    requires After(lim, w, ms) == World(w.d, w.pollers[i := AfterRejections(lim, w.d, n)])
    ensures After(lim, w, ms + [Aborts(i, Rejected)]) == World(w.d, w.pollers[i := AfterRejections(lim, w.d, n + 1)])
  {
    AfterOneMore(lim, w, ms, Aborts(i, Rejected));
    OneRejection(lim, After(lim, w, ms), i, n);
  }

  /** Every rejection but the last leaves another try. */
  lemma {:induction false} RejectionsAreRetried(lim: Limits, w: World, i: nat, n: nat)
    requires i < |w.pollers| && !Busy(w.pollers[i]) && w.d.state == FAILED && n <= (if lim.retries < 0 then 0 else lim.retries)
    ensures After(lim, w, [Looks(i)] + Rejections(i, n)) == World(w.d, w.pollers[i := AfterRejections(lim, w.d, n)])
  {
    if n == 0 {
      assert [Looks(i)] + Rejections(i, 0) == [] + [Looks(i)];
      FailureIsRead(lim, w, i);
    } else {
      var before := [Looks(i)] + Rejections(i, n - 1);
      RejectionsAreRetried(lim, w, i, n - 1);
      RejectedOnceMore(lim, w, before, i, n - 1);
      assert [Looks(i)] + Rejections(i, n) == before + [Aborts(i, Rejected)];
    }
  }

  /** A poll of a failed drain: it looks, aborts until an answer or out of tries, and decides. */
  function PollMoves(i: nat, rejected: nat, answer: Option<AbortReply>): seq<Move> {
    [Looks(i)] + Rejections(i, rejected) + (if answer.Some? then [Aborts(i, answer.value)] else []) + [Decides(i)]
  }

  /** Aborting ends at the first answer that is not a rejection, or without one when the tries are used up. */
  predicate AbortingEnds(lim: Limits, rejected: nat, answer: Option<AbortReply>) {
    if answer.Some? then answer != Some(Rejected) && rejected < lim.retries
    else rejected == if lim.retries < 0 then 0 else lim.retries
  }

  lemma AbortingLeads(lim: Limits, w: World, i: nat, rejected: nat, answer: Option<AbortReply>)
    requires i < |w.pollers| && !Busy(w.pollers[i]) && w.d.state == FAILED && AbortingEnds(lim, rejected, answer)
    ensures var ms := [Looks(i)] + Rejections(i, rejected) + (if answer.Some? then [Aborts(i, answer.value)] else []);
      After(lim, w, ms)
      == World(w.d, w.pollers[i := if answer == Some(Exploded) then Broke else Deciding(w.d.attempts, w.d.error)])
  {
    var ms := [Looks(i)] + Rejections(i, rejected);
    RejectionsAreRetried(lim, w, i, rejected);
    if answer.Some? {
      AfterOneMore(lim, w, ms, Aborts(i, answer.value));
    } else {
      assert ms + [] == ms;
    }
  }

  /**
    * A failed drain, polled by one caller: an abort that explodes escapes with nothing reissued;
    * otherwise, whether or not an abort was accepted, the pause is reissued and reported as under way
    * while reissues are left, and the failure is raised when they are not.
    */
  lemma PollOfAFailure(lim: Limits, w: World, i: nat, rejected: nat, answer: Option<AbortReply>)
    requires i < |w.pollers| && !Busy(w.pollers[i]) && w.d.state == FAILED && AbortingEnds(lim, rejected, answer)
    ensures var v := After(lim, w, PollMoves(i, rejected, answer));
      && |v.pollers| == |w.pollers| && v.pollers == w.pollers[i := v.pollers[i]]
      && if answer == Some(Exploded) then v.pollers[i] == Broke && v.d == w.d
         else if w.d.attempts > lim.reissues then v.pollers[i] == GaveUp(w.d.attempts, w.d.error) && v.d == w.d
         else
           && v.pollers[i] == Reported(DrainEvidence(false, None))
           && v.d == w.d.(state := IN_FLIGHT, attempts := w.d.attempts + 1,
                          running := w.d.running + {Thread(w.d.session, w.d.attempts + 1)})
  {
    AbortingLeads(lim, w, i, rejected, answer);
    AfterOneMore(lim, w, [Looks(i)] + Rejections(i, rejected) + (if answer.Some? then [Aborts(i, answer.value)] else []),
                 Decides(i));
  }

  /** Whatever others have done since, a poll decides by the failure it read: that one is raised, or the next attempt launched. */
  lemma DecisionsGoByWhatWasRead(lim: Limits, w: World, i: nat, attempts: nat, error: Option<string>)
    requires i < |w.pollers| && w.pollers[i] == Deciding(attempts, error)
    ensures var v := Next(lim, w, Decides(i));
      if attempts > lim.reissues then v == World(w.d, w.pollers[i := GaveUp(attempts, error)])
      else v.d == Launch(w.d) && v.pollers == w.pollers[i := Reported(DrainEvidence(false, None))]
  {
  }

  /** A drain that has not failed, polled: completion is reported exactly if it is recorded, and nothing is done. */
  lemma PollOfOthers(lim: Limits, w: World, i: nat)
    requires i < |w.pollers| && !Busy(w.pollers[i]) && w.d.state != FAILED
    ensures After(lim, w, [] + [Looks(i)])
      == World(w.d, w.pollers[i := Reported(DrainEvidence(w.d.state == COMPLETED, None))])
  {
    AfterOneMore(lim, w, [], Looks(i));
  }

  // ------------------------------------------------------------------------ invariants

  /** Histories a run of this adapter can have. */
  ghost predicate Plausible(d: Drain) {
    && d.running !! d.ended.Keys
    && (forall t :: t in d.running || t in d.ended ==> t.session <= d.session && 1 <= t.attempt)
    && (forall t :: (t in d.running || t in d.ended) && t.session == d.session ==> t.attempt <= d.attempts)
  }

  /** Every attempt of the session either runs or has ended, not both. */
  ghost predicate Accounted(d: Drain) {
    && Plausible(d)
    && forall k: nat :: 1 <= k <= d.attempts ==> d.Mine(k) in d.running || d.Mine(k) in d.ended
  }

  /** The recorded state is the verdict of the session's newest attempt. */
  predicate Faithful(d: Drain) {
    && d.attempts >= 1
    && match d.state
       case IDLE => false
       case IN_FLIGHT => d.Newest() in d.running
       case COMPLETED => d.error.None? && d.Newest() in d.ended && d.ended[d.Newest()] == None
       case FAILED => d.error.Some? && d.Newest() in d.ended && d.ended[d.Newest()] == d.error
  }

  /** May still launch an attempt. */
  predicate WillLaunch(lim: Limits, p: Poller) {
    Busy(p) && p.attempts <= lim.reissues
  }

  function Launchers(lim: Limits, ps: seq<Poller>): (count: nat)
    ensures count <= |ps|
  {
    if ps == [] then 0 else Launchers(lim, ps[1..]) + if WillLaunch(lim, ps[0]) then 1 else 0
  }

  lemma {:induction false} LaunchersUpdate(lim: Limits, ps: seq<Poller>, i: nat, p: Poller)
    requires i < |ps|
    ensures Launchers(lim, ps[i := p])
      == Launchers(lim, ps) + (if WillLaunch(lim, p) then 1 else 0) - (if WillLaunch(lim, ps[i]) then 1 else 0)
  {
    var qs := ps[i := p];
    if i == 0 {
      assert qs[1..] == ps[1..];
    } else {
      assert qs[1..] == ps[1..][i - 1 := p];
      LaunchersUpdate(lim, ps[1..], i - 1, p);
    }
  }

  /** The most attempts a session can reach with so many pollers. */
  function Bound(lim: Limits, pollers: nat): nat {
    if lim.reissues < 1 || pollers == 0 then 1 else lim.reissues + pollers
  }

  predicate Bounded(lim: Limits, w: World) {
    && 1 <= w.d.attempts
    && w.d.attempts + Launchers(lim, w.pollers) <= Bound(lim, |w.pollers|)
    && forall i :: 0 <= i < |w.pollers| && Busy(w.pollers[i]) ==> 1 <= w.pollers[i].attempts
  }

  /** Threads left over from earlier sessions all carry numbers this session will not reach. */
  predicate OutOfReach(d: Drain, bound: nat) {
    forall t :: t in d.running && t.session < d.session ==> t.attempt > bound
  }

  ghost predicate SessionInv(lim: Limits, w: World) {
    && Accounted(w.d) && Faithful(w.d) && Bounded(lim, w) && OutOfReach(w.d, Bound(lim, |w.pollers|))
  }

  lemma {:induction false} NoLaunchersYet(lim: Limits, n: nat)
    ensures Launchers(lim, seq(n, _ => Fresh)) == 0
  {
    if n > 0 {
      assert seq(n, _ => Fresh)[1..] == seq(n - 1, _ => Fresh);
      NoLaunchersYet(lim, n - 1);
    }
  }

  lemma OpeningAccounts(d: Drain)
    requires Plausible(d)
    ensures Accounted(Open(d)) && Faithful(Open(d))
  {
  }

  lemma EndKeepsAccounts(d: Drain, who: Thread, error: Option<string>)
    requires Accounted(d) && who in d.running
    ensures Accounted(End(d, who, error))
  {
    var e := End(d, who, error);
    forall k: nat | 1 <= k <= e.attempts ensures e.Mine(k) in e.running || e.Mine(k) in e.ended {
      assert d.Mine(k) in d.running || d.Mine(k) in d.ended;
    }
  }

  lemma LaunchKeepsAccounts(d: Drain)
    requires Accounted(d)
    ensures Accounted(Launch(d))
  {
    var e := Launch(d);
    forall k: nat | 1 <= k <= e.attempts ensures e.Mine(k) in e.running || e.Mine(k) in e.ended {
      assert k <= d.attempts ==> d.Mine(k) in d.running || d.Mine(k) in d.ended;
    }
  }

  lemma NextKeepsAccounts(lim: Limits, w: World, m: Move)
    requires Accounted(w.d)
    ensures Accounted(Next(lim, w, m).d) && Next(lim, w, m).d.session == w.d.session
    ensures |Next(lim, w, m).pollers| == |w.pollers|
  {
    if m.Ends? && m.who in w.d.running {
      EndKeepsAccounts(w.d, m.who, m.error);
    }
    LaunchKeepsAccounts(w.d);
  }

  lemma NextKeepsBound(lim: Limits, w: World, m: Move)
    requires Bounded(lim, w)
    ensures Bounded(lim, Next(lim, w, m))
  {
    if !m.Ends? && m.p < |w.pollers| {
      LaunchersUpdate(lim, w.pollers, m.p, Next(lim, w, m).pollers[m.p]);
    }
  }

  lemma NextKeeps(lim: Limits, w: World, m: Move)
    requires SessionInv(lim, w)
    ensures SessionInv(lim, Next(lim, w, m))
  {
    NextKeepsAccounts(lim, w, m);
    NextKeepsBound(lim, w, m);
  }

  lemma {:induction false} SessionInvariant(lim: Limits, d: Drain, n: nat, ms: seq<Move>)
    requires Plausible(d) && OutOfReach(Open(d), Bound(lim, n))
    ensures var w := After(lim, Opened(d, n), ms);
      SessionInv(lim, w) && |w.pollers| == n && w.d.session == d.session + 1
  {
    if ms == [] {
      OpeningAccounts(d);
      NoLaunchersYet(lim, n);
    } else {
      SessionInvariant(lim, d, n, ms[..|ms| - 1]);
      NextKeeps(lim, After(lim, Opened(d, n), ms[..|ms| - 1]), ms[|ms| - 1]);
      NextKeepsAccounts(lim, After(lim, Opened(d, n), ms[..|ms| - 1]), ms[|ms| - 1]);
    }
  }

  // ---------------------------------------------------------------------- main results

  /**
    * With no pause thread outstanding when the drain begins, any number of pollers and any order of
    * endings: the recorded verdict is the newest attempt's, every attempt is accounted for once,
    * and n pollers together start at most `reissues + n`.
    */
  lemma VerdictsAreTheNewestAttempts(lim: Limits, d: Drain, n: nat, ms: seq<Move>)
    requires Plausible(d) && d.running == {}
    ensures var e := After(lim, Opened(d, n), ms).d;
      && Faithful(e) && Accounted(e)
      && e.attempts <= Bound(lim, n)
  {
    SessionInvariant(lim, d, n, ms);
  }

  // ---------------------------------------------------------------- when COMPLETED stays

  ghost predicate StaysCompleted(lim: Limits, w: World) {
    forall ms :: After(lim, w, ms).d.state == COMPLETED
  }

  predicate NobodyLaunches(lim: Limits, ps: seq<Poller>) {
    forall i :: 0 <= i < |ps| ==> !WillLaunch(lim, ps[i])
  }

  lemma CompletedHolds(lim: Limits, w: World, m: Move)
    requires SessionInv(lim, w) && w.d.state == COMPLETED && NobodyLaunches(lim, w.pollers)
    ensures Next(lim, w, m).d.state == COMPLETED && NobodyLaunches(lim, Next(lim, w, m).pollers)
  {
    if m.Ends? && m.who in w.d.running {
      assert w.d.Newest() !in w.d.running;
    }
  }

  lemma {:induction false} CompletedKeepsHolding(lim: Limits, w: World, ms: seq<Move>)
    requires SessionInv(lim, w) && w.d.state == COMPLETED && NobodyLaunches(lim, w.pollers)
    ensures var v := After(lim, w, ms);
      SessionInv(lim, v) && v.d.state == COMPLETED && NobodyLaunches(lim, v.pollers)
  {
    if ms != [] {
      CompletedKeepsHolding(lim, w, ms[..|ms| - 1]);
      NextKeeps(lim, After(lim, w, ms[..|ms| - 1]), ms[|ms| - 1]);
      CompletedHolds(lim, After(lim, w, ms[..|ms| - 1]), ms[|ms| - 1]);
    }
  }

  lemma LauncherReopens(lim: Limits, w: World, i: nat)
    requires i < |w.pollers| && WillLaunch(lim, w.pollers[i])
    ensures After(lim, w, [Aborts(i, Accepted), Decides(i)]).d.state == IN_FLIGHT
  {
    var ms := [Aborts(i, Accepted), Decides(i)];
    assert ms[..1] == [Aborts(i, Accepted)] && ms[..1][..0] == [];
    assert After(lim, w, ms[..1]) == Next(lim, w, Aborts(i, Accepted));
  }

  /** COMPLETED is final exactly when no poller still acts on a failure it read earlier. */
  lemma CompletedIsStableExactly(lim: Limits, w: World)
    requires SessionInv(lim, w) && w.d.state == COMPLETED
    ensures StaysCompleted(lim, w) <==> NobodyLaunches(lim, w.pollers)
  {
    if NobodyLaunches(lim, w.pollers) {
      forall ms ensures After(lim, w, ms).d.state == COMPLETED {
        CompletedKeepsHolding(lim, w, ms);
      }
    } else {
      var i :| 0 <= i < |w.pollers| && WillLaunch(lim, w.pollers[i]);
      LauncherReopens(lim, w, i);
    }
  }

  lemma BothReadTheFailure(lim: Limits) returns (ms: seq<Move>)
    requires lim.reissues >= 1
    ensures var w := After(lim, Opened(UNUSED, 2), ms);
      && |w.pollers| == 2 && w.d.state == FAILED && w.d.attempts == 1 && w.d.session == 1
      && WillLaunch(lim, w.pollers[0]) && WillLaunch(lim, w.pollers[1])
  {
    var w := Opened(UNUSED, 2);
    var timeout := Ends(Thread(1, 1), Some("timed out"));
    AfterOneMore(lim, w, [], timeout);
    AfterOneMore(lim, w, [] + [timeout], Looks(0));
    AfterOneMore(lim, w, [] + [timeout] + [Looks(0)], Looks(1));
    ms := [] + [timeout] + [Looks(0)] + [Looks(1)];
  }

  lemma ReissueCompletes(lim: Limits, w: World)
    requires |w.pollers| == 2 && WillLaunch(lim, w.pollers[0]) && WillLaunch(lim, w.pollers[1])
    ensures var v := After(lim, w, [Aborts(0, Accepted), Decides(0), Ends(w.d.Mine(w.d.attempts + 1), None)]);
      |v.pollers| == 2 && v.d.state == COMPLETED && WillLaunch(lim, v.pollers[1])
  {
    var ms := [Aborts(0, Accepted), Decides(0), Ends(w.d.Mine(w.d.attempts + 1), None)];
    assert ms[..2] == [Aborts(0, Accepted), Decides(0)] && ms[..2][..1] == [Aborts(0, Accepted)] && ms[..2][..1][..0] == [];
    assert After(lim, w, ms[..2][..1]) == Next(lim, w, ms[0]);
    var v := After(lim, w, ms[..2]);
    assert v.d == Launch(w.d);
  }

  /** Two pollers that both read the first failure: one's reissue completes, the other's undoes it. */
  lemma TwoPollersUndoCompletion(lim: Limits)
    requires lim.reissues >= 1
    ensures exists ms ::
      var w := After(lim, Opened(UNUSED, 2), ms);
      w.d.state == COMPLETED && !StaysCompleted(lim, w)
  {
    var w0 := Opened(UNUSED, 2);
    var ms := BothReadTheFailure(lim);
    var w := After(lim, w0, ms);
    var more := [Aborts(0, Accepted), Decides(0), Ends(w.d.Mine(w.d.attempts + 1), None)];
    ReissueCompletes(lim, w);
    AfterAppend(lim, w0, ms, more);
    SessionInvariant(lim, UNUSED, 2, ms + more);
    CompletedIsStableExactly(lim, After(lim, w0, ms + more));
  }

  // ----------------------------------------------------------------------- one poller

  /** As many attempts as one poller may start, all over, all failed. */
  predicate Exhausted(lim: Limits, d: Drain) {
    && d.state == FAILED && d.attempts == Bound(lim, 1)
    && forall k :: 1 <= k <= d.attempts ==> d.FailedAttempt(k)
  }

  ghost predicate Solo(lim: Limits, w: World) {
    && SessionInv(lim, w) && |w.pollers| == 1
    && (w.d.state == IN_FLIGHT ==> forall t :: t in w.d.running && t.session == w.d.session ==> t == w.d.Newest())
    && (w.d.state != IN_FLIGHT ==> forall t :: t in w.d.running ==> t.session < w.d.session)
    && (forall k :: 1 <= k < w.d.attempts ==> w.d.FailedAttempt(k))
    && w.d.attempts <= Bound(lim, 1)
    && var p := w.pollers[0];
      && (Busy(p) || p.GaveUp? ==> w.d.state == FAILED && p.attempts == w.d.attempts && p.error == w.d.error)
      && (p.GaveUp? ==> p.attempts > lim.reissues)
  }

  lemma NextKeepsSolo(lim: Limits, w: World, m: Move)
    requires Solo(lim, w)
    ensures Solo(lim, Next(lim, w, m))
  {
    NextKeeps(lim, w, m);
    var v := Next(lim, w, m);
    forall k | 1 <= k < v.d.attempts ensures v.d.FailedAttempt(k) {
      assert w.d.FailedAttempt(k);
    }
  }

  lemma {:induction false} SoloInvariant(lim: Limits, d: Drain, ms: seq<Move>)
    requires Plausible(d) && OutOfReach(Open(d), Bound(lim, 1))
    ensures var w := After(lim, Opened(d, 1), ms);
      Solo(lim, w) && w.d.session == d.session + 1
      && (forall t :: t in w.d.running && t.session <= d.session ==> t in d.running)
  {
    SessionInvariant(lim, d, 1, ms);
    if ms != [] {
      SoloInvariant(lim, d, ms[..|ms| - 1]);
      NextKeepsSolo(lim, After(lim, Opened(d, 1), ms[..|ms| - 1]), ms[|ms| - 1]);
    }
  }

  /**
    * One poller and no outstanding thread: one attempt in flight at most, at most `reissues + 1` of
    * them in all, a final COMPLETED, and DrainFailedError exactly when all of them failed.
    */
  lemma OnePoller(lim: Limits, d: Drain, ms: seq<Move>)
    requires Plausible(d) && d.running == {}
    ensures var w := After(lim, Opened(d, 1), ms);
      && |w.pollers| == 1
      && w.d.running == (if w.d.state == IN_FLIGHT then {w.d.Newest()} else {})
      && w.d.attempts <= (if lim.reissues < 0 then 1 else lim.reissues + 1)
      && (w.d.state == COMPLETED ==> StaysCompleted(lim, w))
      && (w.pollers[0].Deciding? ==> (Decide(lim, w.d, w.pollers[0]).1.GaveUp? <==> Exhausted(lim, w.d)))
      && (w.pollers[0].GaveUp? ==>
            && Exhausted(lim, w.d) && w.d.Newest() in w.d.ended
            && w.pollers[0] == GaveUp(Bound(lim, 1), w.d.ended[w.d.Newest()]))
      && (Exhausted(lim, w.d) ==> Busy(Look(lim, w.d)))
  {
    SoloInvariant(lim, d, ms);
    var w := After(lim, Opened(d, 1), ms);
    if w.d.state == COMPLETED {
      CompletedIsStableExactly(lim, w);
    }
    if w.d.state == FAILED {
      assert w.d.FailedAttempt(w.d.attempts);
    }
    if w.d.state == IN_FLIGHT {
      assert w.d.running == {w.d.Newest()};
    } else {
      assert w.d.running == {};
    }
  }

  // -------------------------------------------------------------- threads of older drains

  /** A session that has just launched its k-th attempt, all older threads still out. */
  ghost predicate Launched(d: Drain, e: Drain, k: nat) {
    && Accounted(e) && e.session == d.session + 1 && e.attempts == k && e.state == IN_FLIGHT
    && e.Mine(k) in e.running && d.running <= e.running
  }

  predicate NobodyBusy(ps: seq<Poller>) {
    forall i :: 0 <= i < |ps| ==> !Busy(ps[i])
  }

  /** The newest attempt fails and the first poller reissues. */
  function OneRound(d: Drain): seq<Move> {
    [Ends(d.Newest(), Some("timed out")), Looks(0), Aborts(0, Accepted), Decides(0)]
  }

  lemma PollerPrepares(lim: Limits, w: World, i: nat)
    requires i < |w.pollers| && !Busy(w.pollers[i]) && w.d.state == FAILED
    ensures After(lim, w, [Looks(i), Aborts(i, Accepted)])
      == World(w.d, w.pollers[i := Deciding(w.d.attempts, w.d.error)])
  {
    var ms := [Looks(i), Aborts(i, Accepted)];
    assert ms[..1] == [ms[0]] && ms[..1][..0] == [];
    assert After(lim, w, ms[..1]) == Next(lim, w, ms[0]);
  }

  lemma NewestFails(d: Drain, e: Drain, k: nat)
    requires Plausible(d) && Launched(d, e, k)
    ensures var f := End(e, e.Newest(), Some("timed out"));
      && Accounted(f) && f.state == FAILED && f.attempts == k && f.session == d.session + 1 && d.running <= f.running
  {
    EndKeepsAccounts(e, e.Newest(), Some("timed out"));
  }

  lemma RoundReaches(lim: Limits, d: Drain, w: World, k: nat)
    requires Plausible(d) && Launched(d, w.d, k) && k <= lim.reissues && w.pollers != [] && NobodyBusy(w.pollers)
    ensures var v := After(lim, w, OneRound(w.d));
      Launched(d, v.d, k + 1) && |v.pollers| == |w.pollers| && NobodyBusy(v.pollers)
  {
    var first, prepare := [Ends(w.d.Newest(), Some("timed out"))], [Looks(0), Aborts(0, Accepted)];
    AfterOneMore(lim, w, [], first[0]);
    assert [] + first == first;
    NewestFails(d, w.d, k);
    var v := After(lim, w, first);
    PollerPrepares(lim, v, 0);
    AfterAppend(lim, w, first, prepare);
    AfterOneMore(lim, w, first + prepare, Decides(0));
    assert OneRound(w.d) == first + prepare + [Decides(0)];
    LaunchKeepsAccounts(v.d);
  }

  /** Attempts up to `reissues + 1`, one poller doing all the work. */
  lemma {:induction false} RoundsReach(lim: Limits, d: Drain, n: nat, k: nat) returns (ms: seq<Move>)
    requires Plausible(d) && 1 <= k && (k == 1 || (n >= 1 && k <= lim.reissues + 1))
    ensures var w := After(lim, Opened(d, n), ms);
      Launched(d, w.d, k) && |w.pollers| == n && NobodyBusy(w.pollers)
  {
    if k == 1 {
      ms := [];
      OpeningAccounts(d);
    } else {
      var before := RoundsReach(lim, d, n, k - 1);
      var w := After(lim, Opened(d, n), before);
      RoundReaches(lim, d, w, k - 1);
      AfterAppend(lim, Opened(d, n), before, OneRound(w.d));
      ms := before + OneRound(w.d);
    }
  }

  /** The first j pollers have all read the same failure. */
  predicate Prepared(w: World, v: World, j: nat) {
    && v.d == w.d && |v.pollers| == |w.pollers| && j <= |w.pollers|
    && (forall i :: 0 <= i < j ==> v.pollers[i] == Deciding(w.d.attempts, w.d.error))
    && (forall i :: j <= i < |w.pollers| ==> v.pollers[i] == w.pollers[i])
  }

  lemma {:induction false} AllPrepare(lim: Limits, w: World, j: nat) returns (ms: seq<Move>)
    requires j <= |w.pollers| && NobodyBusy(w.pollers) && w.d.state == FAILED
    ensures Prepared(w, After(lim, w, ms), j)
  {
    if j == 0 {
      ms := [];
    } else {
      var before := AllPrepare(lim, w, j - 1);
      PollerPrepares(lim, After(lim, w, before), j - 1);
      AfterAppend(lim, w, before, [Looks(j - 1), Aborts(j - 1, Accepted)]);
      ms := before + [Looks(j - 1), Aborts(j - 1, Accepted)];
    }
  }

  lemma LaunchReaches(d: Drain, e: Drain, k: nat)
    requires Accounted(e) && e.session == d.session + 1 && d.running <= e.running && e.attempts == k
    ensures Launched(d, Launch(e), k + 1)
  {
    LaunchKeepsAccounts(e);
  }

  predicate PreparedFrom(lim: Limits, ps: seq<Poller>, j: nat) {
    forall i :: j <= i < |ps| ==> ps[i].Deciding? && ps[i].attempts <= lim.reissues
  }

  lemma DecisionLaunches(lim: Limits, w: World, i: nat)
    requires i < |w.pollers| && PreparedFrom(lim, w.pollers, i)
    ensures var v := Next(lim, w, Decides(i));
      && v.d == Launch(w.d) && |v.pollers| == |w.pollers| && PreparedFrom(lim, v.pollers, i + 1)
      && !Busy(v.pollers[i]) && forall k :: 0 <= k < |w.pollers| && k != i ==> v.pollers[k] == w.pollers[k]
  {
  }

  /** Each prepared poller launches an attempt, whatever the others launched meanwhile. */
  lemma {:induction false} PreparedLaunch(lim: Limits, d: Drain, w: World, a: nat, j: nat) returns (ms: seq<Move>)
    requires 1 <= j <= |w.pollers| && w.d.attempts == a && PreparedFrom(lim, w.pollers, 0)
    requires Accounted(w.d) && w.d.session == d.session + 1 && d.running <= w.d.running
    ensures var v := After(lim, w, ms);
      && Launched(d, v.d, a + j) && |v.pollers| == |w.pollers| && PreparedFrom(lim, v.pollers, j)
      && v.d.ended == w.d.ended && !Busy(v.pollers[0])
  {
    var before := [];
    if j > 1 {
      before := PreparedLaunch(lim, d, w, a, j - 1);
    }
    var v := After(lim, w, before);
    DecisionLaunches(lim, v, j - 1);
    LaunchReaches(d, v.d, a + j - 1);
    AfterOneMore(lim, w, before, Decides(j - 1));
    ms := before + [Decides(j - 1)];
  }

  /** The bound on attempts is reached, all pollers acting on the last failure that allows it. */
  lemma AttemptsCanReach(lim: Limits, d: Drain, n: nat, k: nat) returns (ms: seq<Move>)
    requires Plausible(d) && 1 <= k <= Bound(lim, n)
    ensures Launched(d, After(lim, Opened(d, n), ms).d, k)
  {
    if k == 1 || k <= lim.reissues + 1 {
      ms := RoundsReach(lim, d, n, k);
    } else {
      var start, a := Opened(d, n), lim.reissues;
      var rounds := RoundsReach(lim, d, n, a);
      var w := After(lim, start, rounds);
      NewestFails(d, w.d, a);
      AfterOneMore(lim, start, rounds, Ends(w.d.Newest(), Some("timed out")));
      var failed := rounds + [Ends(w.d.Newest(), Some("timed out"))];
      var v := After(lim, start, failed);
      var prepare := AllPrepare(lim, v, n);
      AfterAppend(lim, start, failed, prepare);
      var launch := PreparedLaunch(lim, d, After(lim, v, prepare), a, k - a);
      AfterAppend(lim, start, failed + prepare, launch);
      ms := failed + prepare + launch;
    }
  }

  lemma StaleThreadLies(lim: Limits, d: Drain, w: World, t: Thread)
    requires Plausible(d) && t in d.running && Launched(d, w.d, t.attempt)
    ensures !Faithful(Next(lim, w, Ends(t, None)).d)
  {
    assert t.session <= d.session;
    var e := Next(lim, w, Ends(t, None)).d;
    assert e.state == COMPLETED && e.Newest() in e.running;
    EndKeepsAccounts(w.d, t, None);
  }

  ghost predicate AlwaysFaithful(lim: Limits, w: World) {
    forall ms :: Faithful(After(lim, w, ms).d)
  }

  /**
    * Numbers restart with every drain, so a thread left over from an earlier one can speak for the
    * new: the recorded verdict is always the session's own exactly when every leftover thread
    * carries a number that the session, with so many pollers, cannot reach.
    */
  lemma VerdictsAreOwnExactly(lim: Limits, d: Drain, n: nat)
    requires Plausible(d)
    ensures AlwaysFaithful(lim, Opened(d, n)) <==> OutOfReach(Open(d), Bound(lim, n))
  {
    if OutOfReach(Open(d), Bound(lim, n)) {
      forall ms ensures Faithful(After(lim, Opened(d, n), ms).d) {
        SessionInvariant(lim, d, n, ms);
      }
    } else {
      var t :| t in Open(d).running && t.session <= d.session && t.attempt <= Bound(lim, n);
      var ms := AttemptsCanReach(lim, d, n, t.attempt);
      StaleThreadLies(lim, d, After(lim, Opened(d, n), ms), t);
      AfterOneMore(lim, Opened(d, n), ms, Ends(t, None));
      assert !Faithful(After(lim, Opened(d, n), ms + [Ends(t, None)]).d);
    }
  }

  // ------------------------------------------------------ between begin_drain's sections

  /** The numbering has restarted and the first attempt of the new drain is not out yet. */
  function Gap(d: Drain, pollers: nat): World {
    World(Reset(d), seq(pollers, _ => Fresh))
  }

  /** A pause of this session has returned. */
  ghost predicate Succeeded(d: Drain) {
    exists k: nat :: d.Mine(k) in d.ended && d.ended[d.Mine(k)] == None
  }

  predicate ReportsCompletion(p: Poller) {
    p == Reported(DrainEvidence(true, None))
  }

  /** Some poll has reported completion although no pause of this session has returned. */
  ghost predicate Misled(w: World) {
    !Succeeded(w.d) && exists p :: 0 <= p < |w.pollers| && ReportsCompletion(w.pollers[p])
  }

  /** The most attempts that pollers can launch before begin_drain itself launches one. */
  function GapBound(lim: Limits, pollers: nat): nat {
    if lim.reissues < 0 then 0 else lim.reissues + pollers
  }

  /** Attempts of the new drain stay in bounds, and no leftover thread carries a number within them. */
  ghost predicate Tallied(lim: Limits, w: World, bound: nat) {
    && Accounted(w.d) && OutOfReach(w.d, bound)
    && w.d.attempts + Launchers(lim, w.pollers) <= bound
    && (lim.reissues >= 0 ==> lim.reissues + |w.pollers| <= bound)
  }

  lemma NextKeepsTally(lim: Limits, w: World, m: Move, bound: nat)
    requires Tallied(lim, w, bound)
    ensures Tallied(lim, Next(lim, w, m), bound)
  {
    NextKeepsAccounts(lim, w, m);
    if !m.Ends? && m.p < |w.pollers| {
      LaunchersUpdate(lim, w.pollers, m.p, Next(lim, w, m).pollers[m.p]);
    }
  }

  /** Completion, recorded or reported, is this session's. */
  ghost predicate OwnCompletions(w: World) {
    && (w.d.state == COMPLETED ==> Succeeded(w.d))
    && (forall p :: 0 <= p < |w.pollers| && ReportsCompletion(w.pollers[p]) ==> Succeeded(w.d))
  }

  lemma EndKeepsSuccess(d: Drain, who: Thread, error: Option<string>)
    requires Accounted(d) && who in d.running
    ensures Succeeded(d) ==> Succeeded(End(d, who, error))
    ensures who.session == d.session && End(d, who, error).state == COMPLETED && d.state != COMPLETED ==>
      Succeeded(End(d, who, error))
  {
    var e := End(d, who, error);
    if Succeeded(d) {
      var k: nat :| d.Mine(k) in d.ended && d.ended[d.Mine(k)] == None;
      assert e.Mine(k) in e.ended && e.ended[e.Mine(k)] == None;
    } else if who.session == d.session && e.state == COMPLETED && d.state != COMPLETED {
      assert e.Mine(who.attempt) in e.ended && e.ended[e.Mine(who.attempt)] == None;
    }
  }

  lemma LaunchKeepsSuccess(d: Drain)
    ensures Succeeded(d) ==> Succeeded(Launch(d))
  {
    if Succeeded(d) {
      var k: nat :| d.Mine(k) in d.ended && d.ended[d.Mine(k)] == None;
      assert Launch(d).Mine(k) in Launch(d).ended;
    }
  }

  lemma NextKeepsOwnCompletions(lim: Limits, w: World, m: Move, bound: nat)
    requires Tallied(lim, w, bound) && OwnCompletions(w)
    ensures OwnCompletions(Next(lim, w, m))
  {
    if m.Ends? && m.who in w.d.running {
      EndKeepsSuccess(w.d, m.who, m.error);
    }
    LaunchKeepsSuccess(w.d);
  }

  lemma GapStarts(lim: Limits, d: Drain, n: nat)
    requires Plausible(d)
    ensures Accounted(Reset(d)) && !Succeeded(Reset(d)) && Launchers(lim, Gap(d, n).pollers) == 0
  {
    NoLaunchersYet(lim, n);
  }

  lemma {:induction false} GapStaysTallied(lim: Limits, d: Drain, n: nat, ms: seq<Move>, bound: nat)
    requires Plausible(d) && OutOfReach(Reset(d), bound) && GapBound(lim, n) <= bound
    ensures var w := After(lim, Gap(d, n), ms);
      Tallied(lim, w, bound) && |w.pollers| == n && (d.state != COMPLETED ==> OwnCompletions(w))
  {
    if ms == [] {
      GapStarts(lim, d, n);
    } else {
      var w, m := After(lim, Gap(d, n), ms[..|ms| - 1]), ms[|ms| - 1];
      GapStaysTallied(lim, d, n, ms[..|ms| - 1], bound);
      NextKeepsTally(lim, w, m, bound);
      NextKeepsAccounts(lim, w, m);
      if d.state != COMPLETED {
        NextKeepsOwnCompletions(lim, w, m, bound);
      }
    }
  }

  /** With nothing failed to act on, nothing happens in the gap: leftover verdicts are all dropped. */
  predicate Waiting(w: World) {
    && w.d.attempts == 0 && w.d.state in {IDLE, IN_FLIGHT} && NobodyBusy(w.pollers)
    && forall p :: 0 <= p < |w.pollers| ==> !ReportsCompletion(w.pollers[p])
  }

  lemma {:induction false} GapKeepsWaiting(lim: Limits, d: Drain, n: nat, ms: seq<Move>)
    requires Plausible(d) && d.state in {IDLE, IN_FLIGHT}
    ensures Waiting(After(lim, Gap(d, n), ms)) && Accounted(After(lim, Gap(d, n), ms).d)
  {
    if ms == [] {
      GapStarts(lim, d, n);
    } else {
      GapKeepsWaiting(lim, d, n, ms[..|ms| - 1]);
      NextKeepsAccounts(lim, After(lim, Gap(d, n), ms[..|ms| - 1]), ms[|ms| - 1]);
    }
  }

  // A leftover number within the bound can be reached before begin_drain launches anything.

  /** In the gap, a attempts of the new drain launched and all failed, all pollers free. */
  ghost predicate FailedInGap(d: Drain, w: World, n: nat, a: nat) {
    && Accounted(w.d) && w.d.session == d.session + 1 && w.d.attempts == a && w.d.state == FAILED
    && !Succeeded(w.d) && d.running <= w.d.running && |w.pollers| == n && NobodyBusy(w.pollers)
  }

  lemma FailingKeepsFailure(d: Drain, e: Drain, k: nat)
    requires Plausible(d) && Launched(d, e, k) && !Succeeded(e)
    ensures !Succeeded(End(e, e.Newest(), Some("timed out")))
  {
    var f := End(e, e.Newest(), Some("timed out"));
    forall j: nat | f.Mine(j) in f.ended ensures f.ended[f.Mine(j)] != None {
      assert f.Mine(j) == e.Mine(j);
    }
  }

  lemma LaunchBringsNoSuccess(d: Drain, e: Drain)
    requires !Succeeded(d) && e.ended == d.ended && e.session == d.session
    ensures !Succeeded(e)
  {
    forall j: nat | e.Mine(j) in e.ended ensures e.ended[e.Mine(j)] != None {
      assert d.Mine(j) == e.Mine(j);
    }
  }

  lemma RoundInGap(lim: Limits, d: Drain, w: World, n: nat, a: nat) returns (ms: seq<Move>)
    requires Plausible(d) && FailedInGap(d, w, n, a) && a <= lim.reissues && n >= 1
    ensures FailedInGap(d, After(lim, w, ms), n, a + 1)
  {
    var prepare := [Looks(0), Aborts(0, Accepted)];
    PollerPrepares(lim, w, 0);
    AfterOneMore(lim, w, prepare, Decides(0));
    LaunchReaches(d, w.d, a);
    LaunchBringsNoSuccess(w.d, Launch(w.d));
    var v := After(lim, w, prepare + [Decides(0)]);
    assert v.d == Launch(w.d);
    NewestFails(d, v.d, a + 1);
    FailingKeepsFailure(d, v.d, a + 1);
    AfterOneMore(lim, w, prepare + [Decides(0)], Ends(v.d.Newest(), Some("timed out")));
    ms := prepare + [Decides(0)] + [Ends(v.d.Newest(), Some("timed out"))];
  }

  lemma {:induction false} RoundsInGap(lim: Limits, d: Drain, n: nat, a: nat) returns (ms: seq<Move>)
    requires Plausible(d) && d.state == FAILED && n >= 1 && (a == 0 || a <= lim.reissues + 1)
    ensures FailedInGap(d, After(lim, Gap(d, n), ms), n, a)
  {
    if a == 0 {
      ms := [];
      GapStarts(lim, d, n);
    } else {
      var before := RoundsInGap(lim, d, n, a - 1);
      var round := RoundInGap(lim, d, After(lim, Gap(d, n), before), n, a - 1);
      AfterAppend(lim, Gap(d, n), before, round);
      ms := before + round;
    }
  }

  /** Any number within the bound is reached, with the first poller free to look. */
  lemma GapReaches(lim: Limits, d: Drain, n: nat, k: nat) returns (ms: seq<Move>)
    requires Plausible(d) && d.state == FAILED && n >= 1 && 1 <= k <= GapBound(lim, n)
    ensures var w := After(lim, Gap(d, n), ms);
      Launched(d, w.d, k) && !Succeeded(w.d) && |w.pollers| == n && !Busy(w.pollers[0])
  {
    var a := if k - 1 <= lim.reissues then k - 1 else lim.reissues;
    var rounds := RoundsInGap(lim, d, n, a);
    var w := After(lim, Gap(d, n), rounds);
    var prepare := AllPrepare(lim, w, n);
    var v := After(lim, w, prepare);
    var launch := PreparedLaunch(lim, d, v, a, k - a);
    LaunchBringsNoSuccess(v.d, After(lim, v, launch).d);
    AfterAppend(lim, Gap(d, n), rounds, prepare);
    AfterAppend(lim, Gap(d, n), rounds + prepare, launch);
    ms := rounds + prepare + launch;
  }

  lemma StaleThreadMisleads(lim: Limits, d: Drain, w: World, t: Thread)
    requires Plausible(d) && t in d.running && Launched(d, w.d, t.attempt) && !Succeeded(w.d)
    requires w.pollers != [] && !Busy(w.pollers[0])
    ensures Misled(After(lim, w, [Ends(t, None), Looks(0)]))
  {
    var ms := [Ends(t, None), Looks(0)];
    assert ms[..1] == [ms[0]] && ms[..1][..0] == [];
    assert After(lim, w, ms[..1]) == Next(lim, w, ms[0]);
    var v := After(lim, w, ms);
    assert v.d == End(w.d, t, None) && ReportsCompletion(v.pollers[0]);
    forall j: nat | v.d.Mine(j) in v.d.ended ensures v.d.ended[v.d.Mine(j)] != None {
      assert v.d.Mine(j) == w.d.Mine(j) != t;
    }
  }

  ghost predicate CanMislead(lim: Limits, d: Drain, n: nat) {
    exists ms :: Misled(After(lim, Gap(d, n), ms))
  }

  /**
    * A poll between the sections can report a completion that is not the new drain's exactly when
    * the previous drain is recorded as completed, or as failed with a pause thread left over whose
    * number the pollers can reach by reissuing there.
    */
  lemma GapMisleadsExactly(lim: Limits, d: Drain, n: nat)
    requires Plausible(d) && n >= 1
    ensures CanMislead(lim, d, n)
       <==> d.state == COMPLETED || (d.state == FAILED && !OutOfReach(Reset(d), GapBound(lim, n)))
  {
    var w := Gap(d, n);
    if d.state == COMPLETED {
      AfterOneMore(lim, w, [], Looks(0));
      var v := After(lim, w, [] + [Looks(0)]);
      GapStarts(lim, d, n);
      assert ReportsCompletion(v.pollers[0]);
      assert Misled(v);
    } else if OutOfReach(Reset(d), GapBound(lim, n)) {
      forall ms ensures !Misled(After(lim, w, ms)) {
        GapStaysTallied(lim, d, n, ms, GapBound(lim, n));
      }
    } else if d.state == FAILED {
      var t :| t in d.running && t.session <= d.session && t.attempt <= GapBound(lim, n);
      var ms := GapReaches(lim, d, n, t.attempt);
      StaleThreadMisleads(lim, d, After(lim, w, ms), t);
      AfterAppend(lim, w, ms, [Ends(t, None), Looks(0)]);
    } else {
      forall ms ensures !Misled(After(lim, w, ms)) {
        GapKeepsWaiting(lim, d, n, ms);
      }
    }
  }

  // Whatever happened in the gap, the drain that then begins is sound.

  /** The second section of `begin_drain`. */
  function Close(w: World): World {
    w.(d := Launch(w.d))
  }

  lemma ClosingTallies(lim: Limits, w: World, bound: nat)
    requires Tallied(lim, w, bound) && OutOfReach(w.d, bound + 1)
    ensures Tallied(lim, Close(w), bound + 1) && Faithful(Close(w).d)
  {
    LaunchKeepsAccounts(w.d);
  }

  lemma NextKeepsFaithful(lim: Limits, w: World, m: Move, bound: nat)
    requires Tallied(lim, w, bound) && Faithful(w.d)
    ensures Faithful(Next(lim, w, m).d)
  {
  }

  lemma {:induction false} ClosedStaysFaithful(lim: Limits, w: World, ms: seq<Move>, bound: nat)
    requires Tallied(lim, w, bound) && Faithful(w.d)
    ensures var v := After(lim, w, ms); Tallied(lim, v, bound) && Faithful(v.d)
  {
    if ms != [] {
      ClosedStaysFaithful(lim, w, ms[..|ms| - 1], bound);
      NextKeepsTally(lim, After(lim, w, ms[..|ms| - 1]), ms[|ms| - 1], bound);
      NextKeepsFaithful(lim, After(lim, w, ms[..|ms| - 1]), ms[|ms| - 1], bound);
    }
  }

  lemma {:induction false} LeftoversStay(lim: Limits, w: World, ms: seq<Move>, bound: nat)
    requires OutOfReach(w.d, bound)
    ensures OutOfReach(After(lim, w, ms).d, bound) && After(lim, w, ms).d.session == w.d.session
  {
    if ms != [] {
      LeftoversStay(lim, w, ms[..|ms| - 1], bound);
    }
  }

  /**
    * A drain begun with polls between its two sections: once it has launched its own attempt the
    * recorded verdict is the newest attempt's and every attempt is accounted for, at the price of
    * one attempt more, if no leftover thread carries a number within the bound.
    */
  lemma GapsKeepVerdicts(lim: Limits, d: Drain, n: nat, between: seq<Move>, after: seq<Move>)
    requires Plausible(d) && OutOfReach(Reset(d), GapBound(lim, n) + 1)
    ensures var e := After(lim, Close(After(lim, Gap(d, n), between)), after).d;
      Faithful(e) && Accounted(e) && e.attempts <= GapBound(lim, n) + 1
  {
    GapStaysTallied(lim, d, n, between, GapBound(lim, n));
    LeftoversStay(lim, Gap(d, n), between, GapBound(lim, n) + 1);
    var w := After(lim, Gap(d, n), between);
    ClosingTallies(lim, w, GapBound(lim, n));
    ClosedStaysFaithful(lim, Close(w), after, GapBound(lim, n) + 1);
  }
}

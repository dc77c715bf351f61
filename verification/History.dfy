/** Safety of whole runs of one controller: draining, conservation, atomic failures, salts. */
module History {
  import opened Prelude
  import opened Labels
  import opened Identity
  import opened Lifecycle
  import opened Journal

  // ------------------------------------------------------- drain before mutation

  predicate Ends(r: TransitionRecord, id: string) {
    r.what == Finished(id) || r.what == Aborted(id) || r.what == Moved(TAINT)
  }

  predicate Mutates(r: TransitionRecord) {
    r.what == Moved(BEGIN_UPDATE) || r.what == Moved(CONFIRM_RESUMED)
  }

  lemma {:induction false} PrefixIsReplayable(j: seq<TransitionRecord>, k: nat)
    requires Replayable(j) && k <= |j|
    ensures Replayable(j[..k])
    ensures k < |j| ==> MayFollow(Fold(j[..k]), j[k]) && Fold(j[..k + 1]) == FoldOne(Fold(j[..k]), j[k])
    decreases |j|
  {
    if k == |j| {
      assert j[..k] == j;
    } else {
      var front := j[..|j| - 1];
      PrefixIsReplayable(front, k);
      assert front[..k] == j[..k];
      assert j[..k + 1][..k] == j[..k];
      if k < |front| {
        assert front[k] == j[k];
      }
    }
  }

  /** Outside READY and DRAINING no request is active. */
  lemma {:induction false} QuietWhileMutating(j: seq<TransitionRecord>)
    requires Replayable(j)
    ensures Fold(j).state !in ROLLOUT_COMPLETION_STATES ==> Fold(j).active == []
  {
    if j != [] {
      QuietWhileMutating(j[..|j| - 1]);
    }
  }

  lemma {:induction false} WithoutKeepsOthers(ids: seq<string>, id: string, other: string)
    requires other in ids && other != id
    ensures other in Without(ids, id)
  {
    if ids[0] != id && ids[0] != other {
      WithoutKeepsOthers(ids[1..], id, other);
    }
  }

  lemma OtherRecordsKeepActive(f: Folded, r: TransitionRecord, id: string)
    requires id in f.active && !Ends(r, id)
    ensures id in FoldOne(f, r).active
  {
    match r.what {
      case Finished(other) => WithoutKeepsOthers(f.active, other, id);
      case Aborted(other) => WithoutKeepsOthers(f.active, other, id);
      case _ =>
    }
  }

  lemma {:induction false} StaysActive(j: seq<TransitionRecord>, i: nat, k: nat, id: string)
    requires Replayable(j) && i < k <= |j| && j[i].what == Admitted(id)
    requires forall m :: i < m < k ==> !Ends(j[m], id)
    ensures id in Fold(j[..k]).active
  {
    PrefixIsReplayable(j, k - 1);
    if k > i + 1 {
      StaysActive(j, i, k - 1, id);
      OtherRecordsKeepActive(Fold(j[..k - 1]), j[k - 1], id);
    }
  }

  /** Between an admission and any later update or commit, the rollout ended. */
  lemma DrainBeforeMutation(cmds: seq<Command>, i: nat, k: nat, id: string)
    requires var j := Run(FRESH, cmds).journal; i < k < |j| && j[i].what == Admitted(id) && Mutates(j[k])
    ensures var j := Run(FRESH, cmds).journal; exists m :: i < m < k && Ends(j[m], id)
  {
    JournalIsEventSource(cmds);
    var j := Run(FRESH, cmds).journal;
    if forall m :: i < m < k ==> !Ends(j[m], id) {
      StaysActive(j, i, k, id);
      PrefixIsReplayable(j, k);
      QuietWhileMutating(j[..k]);
      assert false;
    }
  }

  /** Each record starts where the previous one ended, and moves along the table. */
  lemma RecordsChain(cmds: seq<Command>, k: nat)
    requires k < |Run(FRESH, cmds).journal|
    ensures var j := Run(FRESH, cmds).journal;
      && j[k].from == (if k == 0 then UNINITIALIZED else j[k - 1].to)
      && (j[k].what.Moved? && j[k].what.event != TAINT ==> NextState(j[k].from, j[k].what.event) == Some(j[k].to))
      && (!j[k].what.Moved? ==> j[k].from == j[k].to)
  {
    JournalIsEventSource(cmds);
    var j := Run(FRESH, cmds).journal;
    PrefixIsReplayable(j, k);
    if k > 0 {
      PrefixIsReplayable(j, k - 1);
      assert j[..k - 1 + 1] == j[..k];
    }
  }

  // ---------------------------------------------------- failure atomicity, absorption

  function Bindings(orphaned: seq<OrphanedRollout>): seq<RolloutBinding> {
    seq(|orphaned|, i requires 0 <= i < |orphaned| => orphaned[i].binding)
  }

  /** What a raising call may have done to the controller. */
  predicate Atomic(c: Snapshot, d: Snapshot, error: Error) {
    && error != AssertionFailed && error != InvariantViolation(I1_ATOMICITY)
    && (!error.Taints() ==> d == c)
    && (error.Taints() ==>
          && d.state == TAINTED && d.current == c.current && d.pending.None? && d.active == []
          && Bindings(d.orphaned) == Bindings(c.orphaned) + c.active
          && d.taintReason.Some? && (c.taintReason.Some? ==> d.taintReason == c.taintReason)
          && d.taintedIn == (if c.state == TAINTED then c.taintedIn else Some(c.state)))
  }

  lemma RaisingIsAtomic(c: Snapshot, cmd: Command)
    requires Books(c) && Apply(c, cmd).1.Raised?
    ensures Atomic(c, Apply(c, cmd).0, Apply(c, cmd).1.error)
  {
    RaisingShapes(c, cmd);
  }

  /** A recoverable error changes nothing; a taint keeps the commit and orphans the active bindings. */
  lemma FailuresAreAtomic(cmds: seq<Command>, cmd: Command)
    requires Apply(Run(FRESH, cmds), cmd).1.Raised?
    ensures Atomic(Run(FRESH, cmds), Apply(Run(FRESH, cmds), cmd).0, Apply(Run(FRESH, cmds), cmd).1.error)
  {
    JournalIsEventSource(cmds);
    RaisingIsAtomic(Run(FRESH, cmds), cmd);
  }

  lemma TaintedIgnores(c: Snapshot, cmd: Command)
    requires c.state == TAINTED
    ensures Apply(c, cmd).0 == c
  {
  }

  lemma {:induction false} TaintedIsAbsorbing(c: Snapshot, cmds: seq<Command>)
    requires c.state == TAINTED
    ensures Run(c, cmds) == c
  {
    if cmds != [] {
      TaintedIsAbsorbing(c, cmds[..|cmds| - 1]);
      TaintedIgnores(c, cmds[|cmds| - 1]);
    }
  }

  // ------------------------------------------------------------------ conservation

  /** A run together with everything it ever admitted, released and committed. */
  datatype Ledger = Ledger(
    c: Snapshot, admitted: seq<RolloutBinding>, released: seq<RolloutBinding>, commits: seq<UpdateTarget>)

  const EMPTY := Ledger(FRESH, [], [], [])

  function Book(l: Ledger, cmd: Command): Ledger {
    var (d, out) := Apply(l.c, cmd);
    Ledger(
      d,
      if cmd.DoAdmit? && out.Bound? then l.admitted + [out.binding] else l.admitted,
      if (cmd.DoFinish? || cmd.DoAbort?) && out.Bound? then l.released + [out.binding] else l.released,
      if d.current.Some? && d.current != l.c.current then l.commits + [d.current.value] else l.commits)
  }

  function BookAll(cmds: seq<Command>): Ledger {
    if cmds == [] then EMPTY else Book(BookAll(cmds[..|cmds| - 1]), cmds[|cmds| - 1])
  }

  predicate Increasing(admitted: seq<RolloutBinding>) {
    forall i, k :: 0 <= i < k < |admitted| ==> admitted[i].admittedSeq < admitted[k].admittedSeq
  }

  predicate VersionsIncrease(commits: seq<UpdateTarget>) {
    forall i, k :: 0 <= i < k < |commits| ==> commits[i].version.value < commits[k].version.value
  }

  predicate CommitsAgree(l: Ledger) {
    && VersionsIncrease(l.commits)
    && l.c.current == (if l.commits == [] then None else Some(l.commits[|l.commits| - 1]))
  }

  predicate AdmissionsAgree(l: Ledger) {
    && Increasing(l.admitted)
    && forall b :: b in l.admitted ==>
         b.admittedSeq <= l.c.seqNo && b.Target() in l.commits && b.cacheSalt == b.version.CacheSalt()
  }

  predicate Conserved(l: Ledger) {
    multiset(l.admitted) == multiset(l.c.active) + multiset(l.released) + multiset(Bindings(l.c.orphaned))
  }

  /** Only initialize and confirm_resumed commit, the latter what was pending. */
  lemma CommitPoint(c: Snapshot, cmd: Command)
    requires Books(c)
    ensures var (d, out) := Apply(c, cmd);
      d.current != c.current ==>
        && out.Done? && d.current.Some?
        && (cmd.DoInitialize? || (cmd.DoConfirmResumed? && d.current == c.pending))
        && (c.current.Some? ==> d.current.value.version.value > c.current.value.version.value)
  {
  }

  lemma CommitStep(l: Ledger, cmd: Command)
    requires Books(l.c) && CommitsAgree(l)
    ensures CommitsAgree(Book(l, cmd))
    ensures l.commits <= Book(l, cmd).commits
  {
    CommitPoint(l.c, cmd);
  }

  lemma SequenceNeverDecreases(c: Snapshot, cmd: Command)
    ensures Apply(c, cmd).0.seqNo >= c.seqNo
  {
  }

  lemma AdmissionsPersist(l: Ledger, m: Ledger)
    requires AdmissionsAgree(l) && m.admitted == l.admitted && l.commits <= m.commits && l.c.seqNo <= m.c.seqNo
    ensures AdmissionsAgree(m)
  {
    forall b | b in l.admitted ensures b.Target() in m.commits {
      var i :| 0 <= i < |l.commits| && l.commits[i] == b.Target();
      assert m.commits[i] == b.Target();
    }
  }

  lemma AdmissionsGrow(l: Ledger, m: Ledger, b: RolloutBinding)
    requires AdmissionsAgree(l) && m.admitted == l.admitted + [b] && m.commits == l.commits
    requires l.c.seqNo < b.admittedSeq <= m.c.seqNo && b.Target() in l.commits && b.cacheSalt == b.version.CacheSalt()
    ensures AdmissionsAgree(m)
  {
    forall i, k | 0 <= i < k < |m.admitted| ensures m.admitted[i].admittedSeq < m.admitted[k].admittedSeq {
      assert m.admitted[i] in l.admitted;
    }
  }

  /** An admitted binding: numbered next, for the committed target. */
  lemma AdmittedBinding(c: Snapshot, id: string)
    requires Admit(c, id).1.Bound?
    ensures var (d, out) := Admit(c, id);
      && out.binding.admittedSeq == d.seqNo == c.seqNo + 1 && c.current == Some(out.binding.Target()) == d.current
      && out.binding.cacheSalt == out.binding.version.CacheSalt() && d.active == c.active + [out.binding]
      && d.orphaned == c.orphaned
  {
  }

  lemma AdmissionStep(l: Ledger, cmd: Command)
    requires Books(l.c) && CommitsAgree(l) && AdmissionsAgree(l)
    ensures AdmissionsAgree(Book(l, cmd))
  {
    var m := Book(l, cmd);
    CommitStep(l, cmd);
    SequenceNeverDecreases(l.c, cmd);
    if cmd.DoAdmit? && Apply(l.c, cmd).1.Bound? {
      AdmittedBinding(l.c, cmd.id);
      assert l.c.current.value == l.commits[|l.commits| - 1];
      AdmissionsGrow(l, m, Apply(l.c, cmd).1.binding);
    } else {
      AdmissionsPersist(l, m);
    }
  }

  lemma OrphansHoldTheActive(c: Snapshot, reason: Reason)
    requires c.state != TAINTED
    ensures Bindings(Tainted(c, reason).orphaned) == Bindings(c.orphaned) + c.active
  {
  }

  lemma RemoveOne(active: seq<RolloutBinding>, i: nat)
    requires i < |active|
    ensures multiset(active) == multiset(active[..i] + active[i + 1..]) + multiset{active[i]}
  {
    assert active == active[..i] + [active[i]] + active[i + 1..];
  }

  lemma ReleasingMoves(active: seq<RolloutBinding>, i: nat, released: seq<RolloutBinding>)
    requires i < |active|
    ensures multiset(active) + multiset(released)
      == multiset(active[..i] + active[i + 1..]) + multiset(released + [active[i]])
  {
    RemoveOne(active, i);
  }

  lemma ReleaseConserves(l: Ledger, id: string, what: Happening)
    requires Conserved(l) && Release(l.c, id, what).1.Bound?
    ensures var (d, out) := Release(l.c, id, what);
      multiset(l.admitted) == multiset(d.active) + multiset(l.released + [out.binding]) + multiset(Bindings(d.orphaned))
  {
    var i := Position(l.c.active, id);
    var (d, out) := Release(l.c, id, what);
    ReleasingMoves(l.c.active, i, l.released);
    assert d.active == l.c.active[..i] + l.c.active[i + 1..] && out.binding == l.c.active[i];
    assert multiset(l.c.active) + multiset(l.released) == multiset(d.active) + multiset(l.released + [out.binding]);
  }

  lemma TaintConserves(l: Ledger, reason: Reason)
    requires Conserved(l)
    ensures Conserved(l.(c := Tainted(l.c, reason)))
  {
    if l.c.state != TAINTED {
      OrphansHoldTheActive(l.c, reason);
    }
  }

  /** Nothing but rollout calls and taints touches a binding. */
  lemma MovesKeepBindings(c: Snapshot, cmd: Command)
    requires Apply(c, cmd).1.Done?
    ensures Apply(c, cmd).0.active == c.active && Apply(c, cmd).0.orphaned == c.orphaned
  {
  }

  lemma RolloutCallConserves(l: Ledger, cmd: Command)
    requires Conserved(l) && Apply(l.c, cmd).1.Bound?
    ensures Conserved(Book(l, cmd))
  {
    match cmd {
      case DoAdmit(_) =>
      case DoFinish(id) => ReleaseConserves(l, id, Finished(id));
      case DoAbort(id) => ReleaseConserves(l, id, Aborted(id));
    }
  }

  lemma ConservationStep(l: Ledger, cmd: Command)
    requires Books(l.c) && Conserved(l)
    ensures Conserved(Book(l, cmd))
  {
    var (d, out) := Apply(l.c, cmd);
    if out.Bound? {
      RolloutCallConserves(l, cmd);
    } else if out.Done? {
      MovesKeepBindings(l.c, cmd);
    } else {
      RaisingShapes(l.c, cmd);
      if d != l.c {
        TaintConserves(l, d.taintReason.value);
      }
    }
  }

  lemma {:induction false} LedgerInvariant(cmds: seq<Command>)
    ensures var l := BookAll(cmds);
      l.c == Run(FRESH, cmds) && Inv(l.c) && CommitsAgree(l) && AdmissionsAgree(l) && Conserved(l)
  {
    JournalIsEventSource(cmds);
    if cmds != [] {
      var front, last := cmds[..|cmds| - 1], cmds[|cmds| - 1];
      LedgerInvariant(front);
      CommitStep(BookAll(front), last);
      AdmissionStep(BookAll(front), last);
      ConservationStep(BookAll(front), last);
    }
  }

  lemma IncreasingCountsOnce(admitted: seq<RolloutBinding>, b: RolloutBinding)
    requires Increasing(admitted) && b in admitted
    ensures multiset(admitted)[b] == 1
  {
    var i :| 0 <= i < |admitted| && admitted[i] == b;
    var front, back := admitted[..i], admitted[i + 1..];
    assert admitted == front + [b] + back;
    assert b !in multiset(front) && b !in multiset(back);
  }

  /** The binding is in exactly one of active, released and orphaned, once, and owns its number. */
  predicate AccountedOnce(l: Ledger, b: RolloutBinding) {
    && multiset(l.c.active)[b] + multiset(l.released)[b] + multiset(Bindings(l.c.orphaned))[b] == 1
    && forall other :: other in l.admitted && other.admittedSeq == b.admittedSeq ==> other == b
  }

  lemma AdmittedOnce(l: Ledger, b: RolloutBinding)
    requires Conserved(l) && Increasing(l.admitted) && b in l.admitted
    ensures AccountedOnce(l, b)
  {
    IncreasingCountsOnce(l.admitted, b);
  }

  /** Every binding ever admitted is accounted for exactly once. */
  lemma BindingsAreConserved(cmds: seq<Command>, b: RolloutBinding)
    requires b in BookAll(cmds).admitted
    ensures AccountedOnce(BookAll(cmds), b)
  {
    LedgerInvariant(cmds);
    AdmittedOnce(BookAll(cmds), b);
  }

  function JournalNumbers(c: Snapshot): set<nat> {
    set r | r in c.journal :: r.seqNo
  }

  function OrphanNumbers(c: Snapshot): set<nat> {
    set o | o in c.orphaned :: o.seqNo
  }

  ghost predicate NumberedOnce(c: Snapshot) {
    && (forall k :: k in JournalNumbers(c) || k in OrphanNumbers(c) <==> 1 <= k <= c.seqNo)
    && JournalNumbers(c) !! OrphanNumbers(c)
    && (forall i, k :: 0 <= i < k < |c.journal| ==> c.journal[i].seqNo < c.journal[k].seqNo)
    && (forall i, k :: 0 <= i < k < |c.orphaned| ==> c.orphaned[i].seqNo < c.orphaned[k].seqNo)
  }

  lemma NumberedIsNumberedOnce(c: Snapshot)
    requires Numbered(c)
    ensures NumberedOnce(c)
  {
    var n := if c.state == TAINTED then |c.journal| - 1 else |c.journal|;
    forall k | 1 <= k <= c.seqNo ensures k in JournalNumbers(c) || k in OrphanNumbers(c) {
      if k <= n {
        assert c.journal[k - 1].seqNo == k;
      } else if k <= n + |c.orphaned| {
        assert c.orphaned[k - n - 1].seqNo == k;
      } else {
        assert c.journal[n].seqNo == k;
      }
    }
  }

  /** Journal and orphans together are numbered 1..seq, without overlap, each in order. */
  lemma SequenceNumbersAreConserved(cmds: seq<Command>)
    ensures NumberedOnce(Run(FRESH, cmds))
  {
    JournalIsEventSource(cmds);
    NumberedIsNumberedOnce(Run(FRESH, cmds));
  }

  // -------------------------------------------------------------------------- salts

  /** Within one controller's life a salt names one committed target. */
  lemma SaltIdentifiesWeights(cmds: seq<Command>, a: RolloutBinding, b: RolloutBinding)
    requires a in BookAll(cmds).admitted && b in BookAll(cmds).admitted
    ensures a.cacheSalt == b.cacheSalt <==> a.version == b.version
    ensures a.version == b.version <==> a.Target() == b.Target()
  {
    LedgerInvariant(cmds);
    LabelInjective(a.version, b.version);
  }

  /** Committed versions only grow, and only initialize and confirm_resumed commit. */
  lemma CommitsAreMonotonic(cmds: seq<Command>, cmd: Command)
    ensures var l, m := BookAll(cmds), Book(BookAll(cmds), cmd);
      && VersionsIncrease(m.commits)
      && l.commits <= m.commits
      && (l.commits != m.commits ==>
            && Apply(l.c, cmd).1.Done? && (cmd.DoInitialize? || cmd.DoConfirmResumed?)
            && (cmd.DoConfirmResumed? ==> Some(m.commits[|m.commits| - 1]) == l.c.pending))
  {
    LedgerInvariant(cmds);
    CommitStep(BookAll(cmds), cmd);
    CommitPoint(BookAll(cmds).c, cmd);
  }
}

/** Replay validation: the comparison of a record with a second run. */
module Replay {
  import opened Prelude
  import opened Trajectories
  import opened Statistics

  datatype ReplayPlan = ReplayPlan(
    requestId: string, prompt: string, expectedTokenIds: seq<int>, version: string, identityDigest: string,
    cacheSalt: string, recordedLogprobs: seq<real>)

  datatype ReplayObservation = ReplayObservation(
    requestId: string, version: string, tokenIds: seq<int>, logprobs: seq<real>, identityDigest: Option<string>,
    prompt: Option<string>, tokensWereForced: bool)

  datatype Violation = OtherVersion | OtherIdentity | OtherPrompt | EarlyStop | EchoDiffers | EchoLength

  datatype Note = GreedyMismatch | BeyondExpected | TokenOnly | AboveTolerance

  datatype Lane = COMPARED | RECORD_MISSING | REPLAY_MISSING | BOTH_MISSING

  /** What the tokens say. */
  datatype TokenFindings = TokenFindings(mismatches: nat, firstDivergence: Option<nat>, sharedPrefix: nat)

  /** What the logprobs say. */
  datatype LogprobFindings = LogprobFindings(
    lane: Lane, compared: nat, meanAbsDelta: Option<real>, maxAbsDelta: Option<real>, p99AbsDelta: Option<real>,
    worstIndex: Option<nat>)

  datatype ReplayVerdict = ReplayVerdict(
    requestId: string, agrees: bool, protocol: seq<Violation>, tokens: TokenFindings, logprobs: LogprobFindings,
    tolerance: real, notes: seq<Note>)

  /** None stands for ReplayError: a manifest-only record cannot be attributed to weights. */
  function FromTrajectory(t: Trajectory): Option<ReplayPlan> {
    if !t.ReplayReady() then None
    else
      Some(ReplayPlan(
        t.binding.requestId, t.prompt, t.tokenIds, t.Version(), t.binding.weightIdentity.digest, t.binding.cacheSalt,
        t.logprobs))
  }

  // -------------------------------------------------------------- what a verdict means

  function Compared(plan: ReplayPlan, obs: ReplayObservation): nat {
    if |plan.expectedTokenIds| <= |obs.tokenIds| then |plan.expectedTokenIds| else |obs.tokenIds|
  }

  predicate Covers(logprobs: seq<real>, n: nat) {
    logprobs != [] && |logprobs| >= n
  }

  predicate BothCover(plan: ReplayPlan, obs: ReplayObservation) {
    Covers(plan.recordedLogprobs, Compared(plan, obs)) && Covers(obs.logprobs, Compared(plan, obs))
  }

  function Abs(x: real): real {
    if x < 0.0 then -x else x
  }

  function Deltas(plan: ReplayPlan, obs: ReplayObservation): seq<real>
    requires BothCover(plan, obs)
  {
    seq(Compared(plan, obs), i requires 0 <= i < Compared(plan, obs) => Abs(plan.recordedLogprobs[i] - obs.logprobs[i]))
  }

  function Differing(a: seq<int>, b: seq<int>): set<nat> {
    set i | 0 <= i < |a| && i < |b| && a[i] != b[i]
  }

  /** The length of the longest common prefix. */
  predicate IsCommonPrefix(a: seq<int>, b: seq<int>, n: nat) {
    && n <= |a| && n <= |b| && a[..n] == b[..n]
    && (n < |a| && n < |b| ==> a[n] != b[n])
  }

  predicate Violated(plan: ReplayPlan, obs: ReplayObservation, v: Violation) {
    match v
    case OtherVersion => obs.version != plan.version
    case OtherIdentity => obs.identityDigest.Some? && obs.identityDigest.value != plan.identityDigest
    case OtherPrompt => obs.prompt.Some? && obs.prompt.value != plan.prompt
    case EarlyStop => |obs.tokenIds| < |plan.expectedTokenIds|
    case EchoDiffers => obs.tokensWereForced && Differing(plan.expectedTokenIds, obs.tokenIds) != {}
    case EchoLength =>
      && obs.tokensWereForced && Differing(plan.expectedTokenIds, obs.tokenIds) == {}
      && |obs.tokenIds| != |plan.expectedTokenIds|
  }

  /** The order in which violations are reported. */
  function Rank(v: Violation): nat {
    match v
    case OtherVersion => 0
    case OtherIdentity => 1
    case OtherPrompt => 2
    case EarlyStop => 3
    case EchoDiffers => 4
    case EchoLength => 5
  }

  /** Exactly the violations there are, in that order, each once. */
  predicate Reports(plan: ReplayPlan, obs: ReplayObservation, protocol: seq<Violation>) {
    && (forall x :: x in protocol <==> Violated(plan, obs, x))
    && (forall i, k :: 0 <= i < k < |protocol| ==> Rank(protocol[i]) < Rank(protocol[k]))
  }

  predicate SameSource(plan: ReplayPlan, obs: ReplayObservation) {
    !Violated(plan, obs, OtherVersion) && !Violated(plan, obs, OtherIdentity) && !Violated(plan, obs, OtherPrompt)
  }

  predicate Within(deltas: seq<real>, tolerance: real) {
    forall i :: 0 <= i < |deltas| ==> deltas[i] <= tolerance
  }

  /** Same source, same tokens, and no compared logprob out of tolerance. */
  predicate Agrees(plan: ReplayPlan, obs: ReplayObservation, tolerance: real) {
    && SameSource(plan, obs)
    && plan.expectedTokenIds == obs.tokenIds
    && (BothCover(plan, obs) ==> Deltas(plan, obs) != [] && Within(Deltas(plan, obs), tolerance))
  }

  predicate Noted(plan: ReplayPlan, obs: ReplayObservation, tolerance: real, n: Note) {
    match n
    case GreedyMismatch => !obs.tokensWereForced && Differing(plan.expectedTokenIds, obs.tokenIds) != {}
    case BeyondExpected => |obs.tokenIds| > |plan.expectedTokenIds|
    case TokenOnly => !BothCover(plan, obs)
    case AboveTolerance => BothCover(plan, obs) && !Within(Deltas(plan, obs), tolerance)
  }

  function NoteRank(n: Note): nat {
    match n
    case GreedyMismatch => 0
    case BeyondExpected => 1
    case TokenOnly => 2
    case AboveTolerance => 3
  }

  /** Exactly the notes there are, in order, each once. */
  predicate Remarks(plan: ReplayPlan, obs: ReplayObservation, tolerance: real, notes: seq<Note>) {
    && (forall n :: n in notes <==> Noted(plan, obs, tolerance, n))
    && (forall i, k :: 0 <= i < k < |notes| ==> NoteRank(notes[i]) < NoteRank(notes[k]))
  }

  predicate LaneFits(plan: ReplayPlan, obs: ReplayObservation, lane: Lane) {
    && (lane in {COMPARED, REPLAY_MISSING} <==> Covers(plan.recordedLogprobs, Compared(plan, obs)))
    && (lane in {COMPARED, RECORD_MISSING} <==> Covers(obs.logprobs, Compared(plan, obs)))
  }

  /** The four figures describe these deltas. */
  predicate Summarises(v: LogprobFindings, deltas: seq<real>) {
    if deltas == [] then
      v.maxAbsDelta.None? && v.meanAbsDelta.None? && v.p99AbsDelta.None? && v.worstIndex.None?
    else
      && v.maxAbsDelta.Some? && v.meanAbsDelta.Some? && v.p99AbsDelta.Some? && v.worstIndex.Some?
      && v.maxAbsDelta.value in deltas && Within(deltas, v.maxAbsDelta.value)
      && v.worstIndex.value < |deltas| && deltas[v.worstIndex.value] == v.maxAbsDelta.value
      && (forall k :: 0 <= k < v.worstIndex.value ==> deltas[k] < v.maxAbsDelta.value)
      && IsNearestRank(deltas, v.p99AbsDelta.value) && v.p99AbsDelta.value <= v.maxAbsDelta.value
      && (|deltas| < 100 ==> v.p99AbsDelta == v.maxAbsDelta)
      && IsMean(v.meanAbsDelta.value, deltas)
      && 0.0 <= v.meanAbsDelta.value <= v.maxAbsDelta.value
  }

  // -------------------------------------------------------------------------- computing

  function MismatchIndexes(a: seq<int>, b: seq<int>, n: nat): (r: seq<nat>)
    requires n <= |a| && n <= |b|
    ensures forall i :: 0 <= i < |r| ==> r[i] < n
    ensures |r| == |set i | 0 <= i < n && a[i] != b[i]|
    ensures r == [] ==> a[..n] == b[..n]
    ensures r != [] ==> a[r[0]] != b[r[0]] && a[..r[0]] == b[..r[0]]
  {
    if n == 0 then []
    else
      var front := MismatchIndexes(a, b, n - 1);
      var before := set i | 0 <= i < n - 1 && a[i] != b[i];
      if a[n - 1] == b[n - 1] then
        assert (set i | 0 <= i < n && a[i] != b[i]) == before;
        front
      else
        assert (set i | 0 <= i < n && a[i] != b[i]) == before + {n - 1};
        front + [n - 1]
  }

  predicate TokensFit(a: seq<int>, b: seq<int>, f: TokenFindings) {
    && f.mismatches == |Differing(a, b)|
    && IsCommonPrefix(a, b, f.sharedPrefix)
    && f.firstDivergence == if a == b then None else Some(f.sharedPrefix)
  }

  method CompareTokens(plan: ReplayPlan, obs: ReplayObservation) returns (f: TokenFindings)
    ensures TokensFit(plan.expectedTokenIds, obs.tokenIds, f)
  {
    var compared := Compared(plan, obs);
    var mismatches := MismatchIndexes(plan.expectedTokenIds, obs.tokenIds, compared);
    assert Differing(plan.expectedTokenIds, obs.tokenIds)
        == set i | 0 <= i < compared && plan.expectedTokenIds[i] != obs.tokenIds[i];
    var firstDivergence: Option<nat> := None;
    if mismatches != [] {
      firstDivergence := Some(mismatches[0]);
    } else if |plan.expectedTokenIds| != |obs.tokenIds| {
      firstDivergence := Some(compared);
    }
    f := TokenFindings(
      |mismatches|, firstDivergence, if firstDivergence.Some? then firstDivergence.value else compared);
  }

  /** Reports, as far as the violations of the first ranks are concerned. */
  predicate ReportsBelow(plan: ReplayPlan, obs: ReplayObservation, protocol: seq<Violation>, rank: nat) {
    && (forall x :: x in protocol <==> Violated(plan, obs, x) && Rank(x) < rank)
    && (forall i, k :: 0 <= i < k < |protocol| ==> Rank(protocol[i]) < Rank(protocol[k]))
  }

  /** The next possible violation, appended if it occurred. */
  method Report(plan: ReplayPlan, obs: ReplayObservation, before: seq<Violation>, v: Violation, occurred: bool)
    returns (protocol: seq<Violation>)
    requires ReportsBelow(plan, obs, before, Rank(v)) && occurred == Violated(plan, obs, v)
    ensures ReportsBelow(plan, obs, protocol, Rank(v) + 1)
  {
    protocol := if occurred then before + [v] else before;
    assert forall x: Violation :: Rank(x) == Rank(v) ==> x == v;
    assert forall i :: 0 <= i < |before| ==> before[i] in before;
  }

  /** Same weights, same prompt, enough tokens. */
  method CheckSource(plan: ReplayPlan, obs: ReplayObservation) returns (protocol: seq<Violation>)
    ensures ReportsBelow(plan, obs, protocol, 4)
  {
    protocol := Report(plan, obs, [], OtherVersion, obs.version != plan.version);
    protocol := Report(
      plan, obs, protocol, OtherIdentity, obs.identityDigest.Some? && obs.identityDigest.value != plan.identityDigest);
    protocol := Report(plan, obs, protocol, OtherPrompt, obs.prompt.Some? && obs.prompt.value != plan.prompt);
    protocol := Report(plan, obs, protocol, EarlyStop, |obs.tokenIds| < |plan.expectedTokenIds|);
  }

  /** Tokens that were dictated have to come back. */
  method CheckEcho(plan: ReplayPlan, obs: ReplayObservation, f: TokenFindings, before: seq<Violation>)
    returns (protocol: seq<Violation>)
    requires TokensFit(plan.expectedTokenIds, obs.tokenIds, f) && ReportsBelow(plan, obs, before, 4)
    ensures Reports(plan, obs, protocol)
  {
    var faulty, sameLength := f.mismatches > 0, |obs.tokenIds| == |plan.expectedTokenIds|;
    protocol := Report(plan, obs, before, EchoDiffers, obs.tokensWereForced && faulty);
    protocol := Report(plan, obs, protocol, EchoLength, obs.tokensWereForced && !faulty && !sameLength);
    assert forall x: Violation :: Rank(x) < 6;
  }

  method CheckProtocol(plan: ReplayPlan, obs: ReplayObservation, f: TokenFindings) returns (protocol: seq<Violation>)
    requires TokensFit(plan.expectedTokenIds, obs.tokenIds, f)
    ensures Reports(plan, obs, protocol)
  {
    protocol := CheckSource(plan, obs);
    protocol := CheckEcho(plan, obs, f, protocol);
  }

  function Figures(deltas: seq<real>): (f: LogprobFindings)
    requires deltas != [] && forall i :: 0 <= i < |deltas| ==> 0.0 <= deltas[i]
    ensures f.lane == COMPARED && f.compared == |deltas| && Summarises(f, deltas)
  {
    MeanIsWithin(deltas, Max(deltas));
    P99IsTheNearestRank(deltas);
    LogprobFindings(
      COMPARED, |deltas|, Some(Mean(deltas)), Some(Max(deltas)), Some(P99(deltas)), Some(IndexOf(deltas, Max(deltas))))
  }

  method CompareLogprobs(plan: ReplayPlan, obs: ReplayObservation) returns (f: LogprobFindings)
    ensures LaneFits(plan, obs, f.lane)
    ensures f.compared == if BothCover(plan, obs) then Compared(plan, obs) else 0
    ensures Summarises(f, if BothCover(plan, obs) then Deltas(plan, obs) else [])
  {
    var compared := Compared(plan, obs);
    var recordCovers, observedCovers := Covers(plan.recordedLogprobs, compared), Covers(obs.logprobs, compared);
    var lane :=
      if recordCovers && observedCovers then COMPARED
      else if !recordCovers && !observedCovers then BOTH_MISSING
      else if recordCovers then REPLAY_MISSING
      else RECORD_MISSING;
    f := LogprobFindings(lane, 0, None, None, None, None);
    if lane == COMPARED {
      var deltas := Deltas(plan, obs);
      if deltas != [] {
        f := Figures(deltas);
      }
    }
  }

  lemma MaximumDecides(f: LogprobFindings, deltas: seq<real>, tolerance: real)
    requires deltas != [] && Summarises(f, deltas)
    ensures f.maxAbsDelta.value <= tolerance <==> Within(deltas, tolerance)
  {
  }

  predicate RemarksBelow(plan: ReplayPlan, obs: ReplayObservation, tolerance: real, notes: seq<Note>, rank: nat) {
    && (forall n :: n in notes <==> Noted(plan, obs, tolerance, n) && NoteRank(n) < rank)
    && (forall i, k :: 0 <= i < k < |notes| ==> NoteRank(notes[i]) < NoteRank(notes[k]))
  }

  /** The next possible note, appended if there is reason to. */
  method Remark(
    plan: ReplayPlan, obs: ReplayObservation, tolerance: real, before: seq<Note>, n: Note, occurred: bool)
    returns (notes: seq<Note>)
    requires RemarksBelow(plan, obs, tolerance, before, NoteRank(n)) && occurred == Noted(plan, obs, tolerance, n)
    ensures RemarksBelow(plan, obs, tolerance, notes, NoteRank(n) + 1)
  {
    notes := if occurred then before + [n] else before;
    assert forall x: Note :: NoteRank(x) == NoteRank(n) ==> x == n;
    assert forall i :: 0 <= i < |before| ==> before[i] in before;
  }

  method TakeNotes(
    plan: ReplayPlan, obs: ReplayObservation, tolerance: real, tokens: TokenFindings, logprobs: LogprobFindings)
    returns (notes: seq<Note>)
    requires TokensFit(plan.expectedTokenIds, obs.tokenIds, tokens) && LaneFits(plan, obs, logprobs.lane)
    requires Summarises(logprobs, if BothCover(plan, obs) then Deltas(plan, obs) else [])
    ensures Remarks(plan, obs, tolerance, notes)
  {
    var compared, largest := logprobs.lane == COMPARED, logprobs.maxAbsDelta;
    if BothCover(plan, obs) && Deltas(plan, obs) != [] {
      MaximumDecides(logprobs, Deltas(plan, obs), tolerance);
    }
    notes := Remark(plan, obs, tolerance, [], GreedyMismatch, !obs.tokensWereForced && tokens.mismatches > 0);
    notes := Remark(plan, obs, tolerance, notes, BeyondExpected, |obs.tokenIds| > |plan.expectedTokenIds|);
    notes := Remark(plan, obs, tolerance, notes, TokenOnly, !compared);
    notes := Remark(
      plan, obs, tolerance, notes, AboveTolerance, compared && largest.Some? && largest.value > tolerance);
    assert forall x: Note :: NoteRank(x) < 4;
  }

  method ValidateReplay(plan: ReplayPlan, obs: ReplayObservation, tolerance: real) returns (v: ReplayVerdict)
    ensures v.requestId == plan.requestId && v.tolerance == tolerance
    ensures v.agrees <==> Agrees(plan, obs, tolerance)
    ensures Reports(plan, obs, v.protocol)
    ensures Remarks(plan, obs, tolerance, v.notes)
    ensures TokensFit(plan.expectedTokenIds, obs.tokenIds, v.tokens)
    ensures LaneFits(plan, obs, v.logprobs.lane)
    ensures v.logprobs.compared == if BothCover(plan, obs) then Compared(plan, obs) else 0
    ensures Summarises(v.logprobs, if BothCover(plan, obs) then Deltas(plan, obs) else [])
  {
    var tokens := CompareTokens(plan, obs);
    var protocol := CheckProtocol(plan, obs, tokens);
    var logprobs := CompareLogprobs(plan, obs);
    var notes := TakeNotes(plan, obs, tolerance, tokens, logprobs);
    var lengthsMatched := |plan.expectedTokenIds| == |obs.tokenIds|;
    var largest := logprobs.maxAbsDelta;
    var logprobsAgree := logprobs.lane != COMPARED || (largest.Some? && largest.value <= tolerance);
    if BothCover(plan, obs) && Deltas(plan, obs) != [] {
      MaximumDecides(logprobs, Deltas(plan, obs), tolerance);
    }
    CleanProtocol(plan, obs, protocol);
    var agrees := protocol == [] && tokens.mismatches == 0 && lengthsMatched && logprobsAgree;
    v := ReplayVerdict(plan.requestId, agrees, protocol, tokens, logprobs, tolerance, notes);
  }

  /** An empty protocol, no mismatch and equal lengths: same source and same tokens. */
  lemma CleanProtocol(plan: ReplayPlan, obs: ReplayObservation, protocol: seq<Violation>)
    requires Reports(plan, obs, protocol)
    ensures protocol == [] && Differing(plan.expectedTokenIds, obs.tokenIds) == {}
            && |plan.expectedTokenIds| == |obs.tokenIds|
       <==> SameSource(plan, obs) && plan.expectedTokenIds == obs.tokenIds
  {
    var a, b := plan.expectedTokenIds, obs.tokenIds;
    if protocol != [] {
      assert protocol[0] in protocol;
    }
    assert Differing(a, b) == {} && |a| == |b| ==> a == b by {
      assert forall i :: 0 <= i < |a| && i < |b| && a[i] != b[i] ==> i in Differing(a, b);
    }
  }

  // ----------------------------------------------------------------------------- results

  /** The common prefix is unique, and the longest. */
  lemma CommonPrefixIsLongest(a: seq<int>, b: seq<int>, n: nat, m: nat)
    requires IsCommonPrefix(a, b, n) && m <= |a| && m <= |b| && a[..m] == b[..m]
    ensures m <= n && (IsCommonPrefix(a, b, m) ==> m == n)
  {
    if m > n {
    } else if m < n {
      assert a[..n][m] == b[..n][m];
    }
  }

  /** Nothing to report: the same source, no token missing, and forced tokens echoed to the last one. */
  lemma CleanReplays(plan: ReplayPlan, obs: ReplayObservation)
    ensures (forall v: Violation :: !Violated(plan, obs, v)) <==>
      && obs.version == plan.version
      && (obs.identityDigest.Some? ==> obs.identityDigest.value == plan.identityDigest)
      && (obs.prompt.Some? ==> obs.prompt.value == plan.prompt)
      && |obs.tokenIds| >= |plan.expectedTokenIds|
      && (obs.tokensWereForced ==> obs.tokenIds == plan.expectedTokenIds)
  {
    var a, b := plan.expectedTokenIds, obs.tokenIds;
    assert forall i :: 0 <= i < |a| && i < |b| && a[i] != b[i] ==> i in Differing(a, b);
    if forall v: Violation :: !Violated(plan, obs, v) {
      assert !Violated(plan, obs, OtherVersion) && !Violated(plan, obs, OtherIdentity) && !Violated(plan, obs, OtherPrompt);
      assert !Violated(plan, obs, EarlyStop) && !Violated(plan, obs, EchoDiffers) && !Violated(plan, obs, EchoLength);
      assert obs.tokensWereForced ==> a == b;
    }
  }

  /** Tokens that were not forced are never a violation by what they are, and forced ones never a greedy mismatch. */
  lemma DifferencesAreFiledOnce(plan: ReplayPlan, obs: ReplayObservation, tolerance: real)
    requires exists i :: 0 <= i < |plan.expectedTokenIds| && i < |obs.tokenIds| && plan.expectedTokenIds[i] != obs.tokenIds[i]
    ensures Violated(plan, obs, EchoDiffers) <==> obs.tokensWereForced
    ensures Noted(plan, obs, tolerance, GreedyMismatch) <==> !obs.tokensWereForced
    ensures !Violated(plan, obs, EchoLength)
  {
    var i :| 0 <= i < |plan.expectedTokenIds| && i < |obs.tokenIds| && plan.expectedTokenIds[i] != obs.tokenIds[i];
    assert i in Differing(plan.expectedTokenIds, obs.tokenIds);
  }

  /** Which notes there are, from the lists themselves. */
  lemma NotesByInputs(plan: ReplayPlan, obs: ReplayObservation, tolerance: real)
    ensures Noted(plan, obs, tolerance, BeyondExpected) <==> |obs.tokenIds| > |plan.expectedTokenIds|
    ensures var a, b := plan.recordedLogprobs, obs.logprobs;
      var n := if |plan.expectedTokenIds| < |obs.tokenIds| then |plan.expectedTokenIds| else |obs.tokenIds|;
      var both := a != [] && b != [] && n <= |a| && n <= |b|;
      && (Noted(plan, obs, tolerance, TokenOnly) <==> !both)
      && (Noted(plan, obs, tolerance, AboveTolerance) <==>
            both && exists i :: 0 <= i < n && (a[i] - b[i] > tolerance || b[i] - a[i] > tolerance))
  {
    if BothCover(plan, obs) {
      var a, b, deltas := plan.recordedLogprobs, obs.logprobs, Deltas(plan, obs);
      assert forall i :: 0 <= i < |deltas| ==> deltas[i] == Abs(a[i] - b[i]);
      if !Within(deltas, tolerance) {
        var i :| 0 <= i < |deltas| && deltas[i] > tolerance;
        assert a[i] - b[i] > tolerance || b[i] - a[i] > tolerance;
      }
    }
  }

  /** For a planned record, agreement is exactly what it should be. */
  lemma PlannedAgreement(t: Trajectory, obs: ReplayObservation, tolerance: real)
    requires t.Valid() && FromTrajectory(t).Some?
    ensures var plan := FromTrajectory(t).value;
      Agrees(plan, obs, tolerance) <==>
        && obs.version == t.Version()
        && (obs.identityDigest.Some? ==> obs.identityDigest.value == t.binding.weightIdentity.digest)
        && (obs.prompt.Some? ==> obs.prompt.value == t.prompt)
        && obs.tokenIds == t.tokenIds
        && (t.logprobs != [] && |obs.logprobs| >= |t.tokenIds| ==>
              forall i :: 0 <= i < |t.tokenIds| ==> Abs(t.logprobs[i] - obs.logprobs[i]) <= tolerance)
  {
    var plan := FromTrajectory(t).value;
    if obs.tokenIds == t.tokenIds && BothCover(plan, obs) {
      var deltas := Deltas(plan, obs);
      assert forall i :: 0 <= i < |deltas| ==> deltas[i] == Abs(t.logprobs[i] - obs.logprobs[i]);
    }
  }

  /** A record can be planned exactly when it declares its source; the plan then carries what the record says. */
  lemma PlansByInputs(t: Trajectory)
    ensures FromTrajectory(t).Some? <==> t.binding.weightIdentity.source.Some?
    ensures FromTrajectory(t).Some? ==>
      var p := FromTrajectory(t).value;
      && p.requestId == t.binding.requestId && p.prompt == t.prompt && p.expectedTokenIds == t.tokenIds
      && p.version == t.binding.version.Label() && p.identityDigest == t.binding.weightIdentity.digest
      && p.cacheSalt == t.binding.cacheSalt && p.recordedLogprobs == t.logprobs
  {
  }

  /** What a perfect replay of a record would observe. */
  function Echo(t: Trajectory, forced: bool): ReplayObservation {
    ReplayObservation(
      t.binding.requestId, t.Version(), t.tokenIds, t.logprobs, Some(t.binding.weightIdentity.digest), Some(t.prompt),
      forced)
  }

  /** A record agrees with its own echo, unless it has logprobs and the tolerance is negative. */
  lemma RecordReplaysItself(t: Trajectory, forced: bool, tolerance: real)
    requires t.Valid() && FromTrajectory(t).Some?
    ensures Agrees(FromTrajectory(t).value, Echo(t, forced), tolerance) <==> t.logprobs == [] || tolerance >= 0.0
  {
    PlannedAgreement(t, Echo(t, forced), tolerance);
    if t.logprobs != [] {
      assert Abs(t.logprobs[0] - Echo(t, forced).logprobs[0]) == 0.0;
    }
  }
}

/** Which specs and which provenances are identified by their encoding among all there are. */
module Encodings {
  import opened Prelude
  import opened Labels
  import opened Text
  import opened Identity

  // ---------------------------------------------------------------------------- specs

  /** No other spec has this encoding. */
  ghost predicate SpecStandsAlone(s: ParamSpec) {
    forall t: ParamSpec :: t.Canonical() == s.Canonical() ==> t == s
  }

  /** No other spec that the constructor admits has this encoding. */
  ghost predicate ValidSpecStandsAlone(s: ParamSpec) {
    forall t: ParamSpec :: t.Valid() && t.Canonical() == s.Canonical() ==> t == s
  }

  /** A separator that could end the name early, or start the dtype late, leaving neither empty. */
  predicate Splittable(s: ParamSpec)
    requires s.Valid()
  {
    !Free(s.name[1..], SEP) || !Free(s.dtype[..|s.dtype| - 1], SEP)
  }

  lemma CanonicalFields(s: ParamSpec)
    ensures s.Canonical() == s.name + [SEP] + s.dtype + [SEP] + Dims(s.shape)
    ensures Free(Dims(s.shape), SEP)
  {
    JoinThree(s.name, s.dtype, Dims(s.shape));
    DimsRoundTrip(s.shape);
  }

  /** What precedes and what follows the last separator is determined by the text. */
  lemma LastSeparator(x: string, u: string, y: string, v: string)
    requires Free(u, SEP) && Free(v, SEP)
    ensures x + [SEP] + u == y + [SEP] + v ==> x == y && u == v
  {
    var left, right := x + [SEP] + u, y + [SEP] + v;
    assert left[|x|] == SEP && right[|y|] == SEP;
    if |x| < |y| {
      assert |y| < |left| ==> left[|y|] == u[|y| - |x| - 1];
    } else if |y| < |x| {
      assert |x| < |right| ==> right[|x|] == v[|x| - |y| - 1];
    } else {
      assert left[..|x|] == x && right[..|x|] == y && left[|x| + 1..] == u && right[|x| + 1..] == v;
    }
  }

  lemma SameEncoding(s: ParamSpec, t: ParamSpec)
    ensures s.Canonical() == t.Canonical()
       <==> s.name + [SEP] + s.dtype == t.name + [SEP] + t.dtype && s.shape == t.shape
  {
    CanonicalFields(s);
    CanonicalFields(t);
    if s.Canonical() == t.Canonical() {
      LastSeparator(s.name + [SEP] + s.dtype, Dims(s.shape), t.name + [SEP] + t.dtype, Dims(t.shape));
      DimsRoundTrip(s.shape);
      DimsRoundTrip(t.shape);
    }
  }

  /** Another reading of the same text ends the name at a separator in the name, or in the dtype. */
  lemma OtherReadingsSplit(s: ParamSpec, t: ParamSpec)
    requires s.name + [SEP] + s.dtype == t.name + [SEP] + t.dtype && s.shape == t.shape
    ensures t == s || !s.Clean()
    ensures s.Valid() && t.Valid() ==> t == s || Splittable(s)
  {
    var head, n := s.name + [SEP] + s.dtype, |t.name|;
    assert head[n] == SEP && |head| == n + 1 + |t.dtype|;
    if n < |s.name| {
      assert s.name[n] == SEP;
      assert n > 0 ==> s.name[1..][n - 1] == SEP;
    } else if n > |s.name| {
      var k := n - |s.name| - 1;
      assert s.dtype[k] == SEP;
      assert k < |s.dtype| - 1 ==> s.dtype[..|s.dtype| - 1][k] == SEP;
    } else {
      assert head[..n] == s.name && head[..n] == t.name && head[n + 1..] == s.dtype && head[n + 1..] == t.dtype;
    }
  }

  lemma SplitName(s: ParamSpec, i: nat) returns (t: ParamSpec)
    requires i < |s.name| && s.name[i] == SEP
    ensures t == ParamSpec(s.name[..i], s.name[i + 1..] + [SEP] + s.dtype, s.shape)
    ensures t != s && t.Canonical() == s.Canonical()
  {
    t := ParamSpec(s.name[..i], s.name[i + 1..] + [SEP] + s.dtype, s.shape);
    assert s.name == s.name[..i] + [SEP] + s.name[i + 1..];
    assert t.name + [SEP] + t.dtype == s.name + [SEP] + s.dtype;
    SameEncoding(s, t);
  }

  lemma SplitDtype(s: ParamSpec, i: nat) returns (t: ParamSpec)
    requires i < |s.dtype| && s.dtype[i] == SEP
    ensures t == ParamSpec(s.name + [SEP] + s.dtype[..i], s.dtype[i + 1..], s.shape)
    ensures t != s && t.Canonical() == s.Canonical()
  {
    t := ParamSpec(s.name + [SEP] + s.dtype[..i], s.dtype[i + 1..], s.shape);
    assert s.dtype == s.dtype[..i] + [SEP] + s.dtype[i + 1..];
    assert t.name + [SEP] + t.dtype == s.name + [SEP] + s.dtype;
    SameEncoding(s, t);
  }

  /** A spec is identified by its encoding exactly when neither text in it holds the field separator. */
  lemma SpecsStandAloneExactly(s: ParamSpec)
    ensures SpecStandsAlone(s) <==> s.Clean()
  {
    if s.Clean() {
      forall t: ParamSpec | t.Canonical() == s.Canonical() ensures t == s {
        SameEncoding(s, t);
        OtherReadingsSplit(s, t);
      }
    } else if !Free(s.name, SEP) {
      var i :| 0 <= i < |s.name| && s.name[i] == SEP;
      var t := SplitName(s, i);
    } else {
      var i :| 0 <= i < |s.dtype| && s.dtype[i] == SEP;
      var t := SplitDtype(s, i);
    }
  }

  /** Among specs that can be constructed, a separator at the outer end of either text does no harm. */
  lemma ValidSpecsStandAloneExactly(s: ParamSpec)
    requires s.Valid()
    ensures ValidSpecStandsAlone(s) <==> !Splittable(s)
  {
    if !Splittable(s) {
      forall t: ParamSpec | t.Valid() && t.Canonical() == s.Canonical() ensures t == s {
        SameEncoding(s, t);
        OtherReadingsSplit(s, t);
      }
    } else if !Free(s.name[1..], SEP) {
      var i :| 0 <= i < |s.name| - 1 && s.name[1..][i] == SEP;
      var t := SplitName(s, i + 1);
      assert t.Valid();
    } else {
      var i :| 0 <= i < |s.dtype| - 1 && s.dtype[..|s.dtype| - 1][i] == SEP;
      var t := SplitDtype(s, i);
      assert t.Valid();
    }
  }

  // ------------------------------------------------------------------------- manifests

  /** What can be hashed: specs the constructor admits, sorted, with no name twice. */
  predicate Hashable(m: seq<ParamSpec>) {
    && (forall i :: 0 <= i < |m| ==> m[i].Valid())
    && Sorted(m) && DistinctNames(m)
  }

  /** No other manifest that can be hashed has this text. */
  ghost predicate ManifestStandsAlone(m: seq<ParamSpec>) {
    forall k :: Hashable(k) && ManifestText(k) == ManifestText(m) ==> k == m
  }

  lemma OneSpecIsHashable(s: ParamSpec)
    requires s.Valid()
    ensures Hashable([s]) && ManifestText([s]) == s.Canonical() + [LINE]
  {
    OneSpecIsDistinct(s);
    assert [s][1..] == [];
  }

  /** The line before can be read as part of the next spec's name. */
  lemma NameSwallowsALine(line: string, s: ParamSpec)
    ensures ParamSpec(line + [LINE] + s.name, s.dtype, s.shape).Canonical() == line + [LINE] + s.Canonical()
  {
    CanonicalFields(s);
    CanonicalFields(ParamSpec(line + [LINE] + s.name, s.dtype, s.shape));
  }

  /** Any manifest reads as one spec whose name swallows all earlier lines, and that name can be split. */
  lemma {:induction false} ManifestFolds(m: seq<ParamSpec>) returns (s: ParamSpec)
    requires m != [] && forall i :: 0 <= i < |m| ==> m[i].Valid()
    ensures s.Valid() && s.Canonical() + [LINE] == ManifestText(m)
    ensures |m| == 1 ==> s == m[0]
    ensures |m| > 1 ==> Splittable(s)
  {
    if |m| == 1 {
      s := m[0];
      assert m[1..] == [];
    } else {
      var rest := ManifestFolds(m[1..]);
      var line := m[0].Canonical();
      s := ParamSpec(line + [LINE] + rest.name, rest.dtype, rest.shape);
      NameSwallowsALine(line, rest);
      CanonicalFields(m[0]);
      assert s.name[1..][|m[0].name| - 1] == SEP;
    }
  }

  lemma SingleManifestStandsAlone(s: ParamSpec, k: seq<ParamSpec>)
    requires s.Valid() && !Splittable(s) && Hashable(k) && ManifestText(k) == ManifestText([s])
    ensures k == [s]
  {
    OneSpecIsHashable(s);
    assert k != [];
    var t := ManifestFolds(k);
    ValidSpecsStandAloneExactly(s);
    assert t.Canonical() == (t.Canonical() + [LINE])[..|t.Canonical()|] == s.Canonical();
  }

  /**
    * Among all manifests that can be hashed, one is identified by its text exactly when it is empty,
    * or a single spec that stands alone: any earlier line could be part of the last spec's name.
    */
  lemma ManifestsStandAloneExactly(m: seq<ParamSpec>)
    requires Hashable(m)
    ensures ManifestStandsAlone(m) <==> m == [] || (|m| == 1 && !Splittable(m[0]))
  {
    if m == [] {
      assert ManifestText(m) == "";
    } else if |m| > 1 {
      var s := ManifestFolds(m);
      OneSpecIsHashable(s);
      assert ManifestText([s]) == ManifestText(m) && [s] != m;
    } else {
      var s := m[0];
      assert m == [s];
      if Splittable(s) {
        ValidSpecsStandAloneExactly(s);
        var t: ParamSpec :| t.Valid() && t.Canonical() == s.Canonical() && t != s;
        OneSpecIsHashable(s);
        OneSpecIsHashable(t);
        assert [t][0] != m[0];
      } else {
        forall k | Hashable(k) && ManifestText(k) == ManifestText(m) ensures k == m {
          SingleManifestStandsAlone(s, k);
        }
      }
    }
  }

  // ----------------------------------------------------------------------- provenances

  /** No other provenance that the constructor admits has this encoding. */
  ghost predicate ProvenanceStandsAlone(p: WeightProvenance) {
    forall q: WeightProvenance :: q.Valid() && q.Canonical() == p.Canonical() ==> q == p
  }

  function StepTail(p: WeightProvenance): string {
    if p.step.Some? then [SEP] + STEP + Decimal(p.step.value) else ""
  }

  function RunTail(p: WeightProvenance): string {
    (if p.runId.Some? then [SEP] + RUN_ID + p.runId.value else "") + StepTail(p)
  }

  lemma JoinTwo(x: string, y: string)
    ensures Join([x, y], SEP) == x + [SEP] + y
  {
    assert [x, y][1..] == [y];
  }

  lemma CanonicalParts(p: WeightProvenance)
    requires p.Valid()
    ensures p.checkpoint.Some? ==> p.Canonical() == CHECKPOINT + p.checkpoint.value + RunTail(p)
    ensures p.checkpoint.None? && p.runId.Some? ==> p.Canonical() == RUN_ID + p.runId.value + StepTail(p)
    ensures p.checkpoint.None? && p.runId.None? ==> p.Canonical() == STEP + Decimal(p.step.value)
  {
    match p {
      case WeightProvenance(Some(c), Some(r), Some(n)) =>
        assert p.Parts() == [CHECKPOINT + c, RUN_ID + r, STEP + Decimal(n)];
        JoinThree(CHECKPOINT + c, RUN_ID + r, STEP + Decimal(n));
      case WeightProvenance(Some(c), Some(r), None) =>
        assert p.Parts() == [CHECKPOINT + c, RUN_ID + r];
        JoinTwo(CHECKPOINT + c, RUN_ID + r);
      case WeightProvenance(Some(c), None, Some(n)) =>
        assert p.Parts() == [CHECKPOINT + c, STEP + Decimal(n)];
        JoinTwo(CHECKPOINT + c, STEP + Decimal(n));
      case WeightProvenance(None, Some(r), Some(n)) =>
        assert p.Parts() == [RUN_ID + r, STEP + Decimal(n)];
        JoinTwo(RUN_ID + r, STEP + Decimal(n));
      case _ =>
    }
  }

  /** The text reads as a shorter value, then a step. */
  predicate EndsInStep(value: string) {
    exists k :: 0 < k < |value| && IsStepTail(value[k..])
  }

  predicate IsStepTail(tail: string) {
    StartsWith(tail, [SEP] + STEP) && AllDigits(tail[6..]) && Minimal(tail[6..])
  }

  /** The text reads as a shorter value, then a run. */
  predicate GoesOnWithRun(value: string) {
    exists k :: 0 < k < |value| && IsRunTail(value[k..])
  }

  predicate IsRunTail(tail: string) {
    StartsWith(tail, [SEP] + RUN_ID) && |tail| > 8
  }

  /** One field only, and no way to read its text as two. */
  predicate SaysOneThing(p: WeightProvenance) {
    match p
    case WeightProvenance(Some(c), None, None) => !GoesOnWithRun(c) && !EndsInStep(c)
    case WeightProvenance(None, Some(r), None) => !EndsInStep(r)
    case WeightProvenance(None, None, Some(_)) => true
    case _ => false
  }

  lemma StepTailsRead(n: nat)
    ensures IsStepTail([SEP] + STEP + Decimal(n))
  {
    DecimalRoundTrip(n);
    assert ([SEP] + STEP + Decimal(n))[6..] == Decimal(n);
  }

  lemma StepTailsAreSteps(tail: string)
    requires IsStepTail(tail)
    ensures tail == [SEP] + STEP + Decimal(ParseDecimal(tail[6..]))
  {
    ParsePrintsMinimal(tail[6..]);
  }

  /** Encodings begin with the first letter of their first key. */
  lemma SameFirstKey(p: WeightProvenance, q: WeightProvenance)
    requires p.Valid() && q.Valid() && p.Canonical() == q.Canonical()
    ensures p.checkpoint.Some? == q.checkpoint.Some?
    ensures p.checkpoint.None? ==> p.runId.Some? == q.runId.Some?
  {
    CanonicalParts(p);
    CanonicalParts(q);
    assert p.Canonical()[0] == if p.checkpoint.Some? then 'c' else if p.runId.Some? then 'r' else 's';
    assert q.Canonical()[0] == if q.checkpoint.Some? then 'c' else if q.runId.Some? then 'r' else 's';
  }

  lemma Suffix(whole: string, front: string, tail: string)
    requires whole == front + tail
    ensures whole[|front|..] == tail
  {
  }

  lemma LongerReads(value: string, front: string, tail: string)
    requires value == front + tail && front != ""
    ensures IsStepTail(tail) ==> EndsInStep(value)
    ensures IsRunTail(tail) ==> GoesOnWithRun(value)
  {
    Suffix(value, front, tail);
    var k := |front|;
    assert IsStepTail(tail) || IsRunTail(tail) ==> |tail| > 0;
    assert IsStepTail(tail) ==> 0 < k < |value| && IsStepTail(value[k..]);
    assert IsRunTail(tail) ==> 0 < k < |value| && IsRunTail(value[k..]);
  }

  /** Two keyed texts are equal when what follows the key is. */
  lemma AfterKey(key: string, x: string, front: string, tail: string)
    requires key + x + "" == key + front + tail
    ensures x == front + tail && (tail == "" ==> x == front)
  {
    assert key + x + "" == key + x;
    Suffix(key + x, key, x);
    assert key + front + tail == key + (front + tail);
    Suffix(key + (front + tail), key, front + tail);
  }

  lemma CheckpointReadsOneWay(p: WeightProvenance, q: WeightProvenance)
    requires p.Valid() && q.Valid() && p.Canonical() == q.Canonical() && SaysOneThing(p)
    requires p.checkpoint.Some? && q.checkpoint.Some?
    ensures p == q
  {
    CanonicalParts(p);
    CanonicalParts(q);
    TailsOf(p);
    assert p.runId.None? && p.step.None?;
    AfterKey(CHECKPOINT, p.checkpoint.value, q.checkpoint.value, RunTail(q));
    TailsRead(q);
    LongerReads(p.checkpoint.value, q.checkpoint.value, RunTail(q));
  }

  lemma TailsRead(q: WeightProvenance)
    requires q.Valid()
    ensures RunTail(q) != "" ==> IsRunTail(RunTail(q)) || IsStepTail(RunTail(q))
    ensures StepTail(q) != "" ==> IsStepTail(StepTail(q))
    ensures RunTail(q) == "" <==> q.runId.None? && q.step.None?
    ensures StepTail(q) == "" <==> q.step.None?
  {
    if q.step.Some? {
      StepTailsRead(q.step.value);
    }
    if q.runId.Some? {
      assert RunTail(q)[..8] == [SEP] + RUN_ID;
    }
  }

  lemma RunReadsOneWay(p: WeightProvenance, q: WeightProvenance)
    requires p.Valid() && q.Valid() && p.Canonical() == q.Canonical() && SaysOneThing(p)
    requires p.checkpoint.None? && q.checkpoint.None? && p.runId.Some? && q.runId.Some?
    ensures p == q
  {
    CanonicalParts(p);
    CanonicalParts(q);
    TailsOf(p);
    assert p.step.None?;
    AfterKey(RUN_ID, p.runId.value, q.runId.value, StepTail(q));
    TailsRead(q);
    LongerReads(p.runId.value, q.runId.value, StepTail(q));
  }

  lemma ReadsOneWay(p: WeightProvenance, q: WeightProvenance)
    requires p.Valid() && q.Valid() && p.Canonical() == q.Canonical() && SaysOneThing(p)
    ensures p == q
  {
    SameFirstKey(p, q);
    if p.checkpoint.Some? {
      CheckpointReadsOneWay(p, q);
    } else if p.runId.Some? {
      RunReadsOneWay(p, q);
    } else {
      CanonicalParts(p);
      CanonicalParts(q);
      Suffix(p.Canonical(), STEP, Decimal(p.step.value));
      Suffix(q.Canonical(), STEP, Decimal(q.step.value));
      DecimalRoundTrip(p.step.value);
      DecimalRoundTrip(q.step.value);
    }
  }

  /** The fields after the first can always be read as part of the first. */
  lemma FieldsMerge(p: WeightProvenance) returns (q: WeightProvenance)
    requires p.Valid() && ((p.checkpoint.Some? && RunTail(p) != "") || (p.checkpoint.None? && p.runId.Some? && p.step.Some?))
    ensures q.Valid() && q != p && q.Canonical() == p.Canonical()
  {
    q := if p.checkpoint.Some? then WeightProvenance(Some(p.checkpoint.value + RunTail(p)), None, None)
      else WeightProvenance(None, Some(p.runId.value + StepTail(p)), None);
    CanonicalParts(p);
    CanonicalParts(q);
  }

  lemma Regroup(key: string, front: string, tail: string)
    ensures key + (front + tail) + "" == key + front + tail
  {
  }

  lemma TailsOf(p: WeightProvenance)
    ensures p.runId.None? ==> RunTail(p) == StepTail(p)
    ensures p.step.None? ==> StepTail(p) == ""
    ensures p.step.Some? ==> StepTail(p) == [SEP] + STEP + Decimal(p.step.value)
  {
  }

  lemma StepSplitsOff(p: WeightProvenance, value: string, k: nat) returns (q: WeightProvenance)
    requires p == WeightProvenance(Some(value), None, None) || p == WeightProvenance(None, Some(value), None)
    requires 0 < k < |value| && IsStepTail(value[k..])
    ensures q.Valid() && q != p && q.Canonical() == p.Canonical()
  {
    var front, tail := value[..k], value[k..];
    var n := ParseDecimal(tail[6..]);
    StepTailsAreSteps(tail);
    assert value == front + tail;
    if p.checkpoint.Some? {
      q := WeightProvenance(Some(front), None, Some(n));
      Regroup(CHECKPOINT, front, tail);
    } else {
      q := WeightProvenance(None, Some(front), Some(n));
      Regroup(RUN_ID, front, tail);
    }
    TailsOf(p);
    TailsOf(q);
    CanonicalParts(p);
    CanonicalParts(q);
  }

  lemma RunSplitsOff(p: WeightProvenance, value: string, k: nat) returns (q: WeightProvenance)
    requires p == WeightProvenance(Some(value), None, None) && 0 < k < |value| && IsRunTail(value[k..])
    ensures q.Valid() && q != p && q.Canonical() == p.Canonical()
  {
    q := WeightProvenance(Some(value[..k]), Some(value[k..][8..]), None);
    assert value == value[..k] + value[k..] && value[k..] == [SEP] + RUN_ID + value[k..][8..];
    CanonicalParts(p);
    CanonicalParts(q);
  }

  /**
    * Among all provenances, one is identified by its encoding exactly when it gives a single field
    * whose text does not itself read as several: any second field could be part of the first.
    */
  lemma ProvenancesStandAloneExactly(p: WeightProvenance)
    requires p.Valid()
    ensures ProvenanceStandsAlone(p) <==> SaysOneThing(p)
  {
    if SaysOneThing(p) {
      forall q: WeightProvenance | q.Valid() && q.Canonical() == p.Canonical() ensures q == p {
        ReadsOneWay(p, q);
      }
    } else {
      var q: WeightProvenance;
      match p {
        case WeightProvenance(Some(c), None, None) =>
          if GoesOnWithRun(c) {
            var k :| 0 < k < |c| && IsRunTail(c[k..]);
            q := RunSplitsOff(p, c, k);
          } else {
            var k :| 0 < k < |c| && IsStepTail(c[k..]);
            q := StepSplitsOff(p, c, k);
          }
        case WeightProvenance(None, Some(r), None) =>
          var k :| 0 < k < |r| && IsStepTail(r[k..]);
          q := StepSplitsOff(p, r, k);
        case _ => q := FieldsMerge(p);
      }
      assert q.Valid() && q.Canonical() == p.Canonical() && q != p;
    }
  }

  /** No other provenance and manifest digest hash the same qualified text. */
  ghost predicate QualifiedTextStandsAlone(p: WeightProvenance, h: Hex64) {
    forall q: WeightProvenance, k: Hex64 ::
      q.Valid() && ProvenanceText(q, DIGEST_PREFIX + k) == ProvenanceText(p, DIGEST_PREFIX + h) ==> q == p && k == h
  }

  /** The same for the text that is hashed when a provenance is declared; the digest in it is never in doubt. */
  lemma QualifiedTextsStandAloneExactly(p: WeightProvenance, h: Hex64)
    requires p.Valid()
    ensures QualifiedTextStandsAlone(p, h) <==> SaysOneThing(p)
  {
    ProvenancesStandAloneExactly(p);
    if SaysOneThing(p) {
      forall q: WeightProvenance, k: Hex64
        | q.Valid() && ProvenanceText(q, DIGEST_PREFIX + k) == ProvenanceText(p, DIGEST_PREFIX + h)
        ensures q == p && k == h
      {
        QualifiedTextParts(q, k, p, h);
      }
    } else {
      var q: WeightProvenance :| q.Valid() && q.Canonical() == p.Canonical() && q != p;
      QualifiedTextParts(q, h, p, h);
    }
  }
}

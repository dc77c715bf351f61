/** Trajectory records: what came out of a rollout, and the declared weights that made it. */
module Trajectories {
  import opened Prelude
  import opened Labels
  import opened Identity
  import opened Lifecycle

  datatype Trajectory = Trajectory(
    binding: RolloutBinding, prompt: string, text: string, tokenIds: seq<int>, logprobs: seq<real>,
    finishReason: Option<string>, seconds: Option<real>,
    engineVersionAtAdmission: Option<string>, engineVersionAtCompletion: Option<string>)
  {
    /** The checks of __post_init__, together with those of the identity it holds. */
    predicate Valid() {
      && prompt != ""
      && (logprobs == [] || |logprobs| == |tokenIds|)
      && (seconds.Some? ==> seconds.value >= 0.0)
      && binding.weightIdentity.Valid()
    }

    function Version(): string {
      binding.version.Label()
    }

    predicate ReplayReady() {
      binding.weightIdentity.DeclaresSource()
    }

    /** None when no observation was recorded. */
    function AdmissionAgrees(): Option<bool> {
      if engineVersionAtAdmission.None? then None else Some(engineVersionAtAdmission.value == Version())
    }

    predicate SpansAnUpdate() {
      engineVersionAtCompletion.Some? && engineVersionAtCompletion.value != Version()
    }
  }

  /** The detector reads the completion label alone: it fires exactly for another generation's, never unread. */
  lemma SpansByVersion(t: Trajectory, v: WeightVersion)
    ensures t.engineVersionAtCompletion == Some(v.Label()) ==> (t.SpansAnUpdate() <==> v != t.binding.version)
    ensures t.engineVersionAtCompletion == None ==> !t.SpansAnUpdate()
  {
    LabelInjective(v, t.binding.version);
  }

  /** Agreement at admission reads the admission label alone: unknown unread, else whether it is the bound generation's. */
  lemma AdmissionAgreesByVersion(t: Trajectory, v: WeightVersion)
    ensures t.engineVersionAtAdmission == Some(v.Label()) ==> t.AdmissionAgrees() == Some(v == t.binding.version)
    ensures t.engineVersionAtAdmission == None ==> t.AdmissionAgrees() == None
  {
    LabelInjective(v, t.binding.version);
  }

  /** A label that is no generation's at all spans too, and does not agree. */
  lemma ForeignLabelsSpan(t: Trajectory, written: string)
    requires ParseLabel(written).None?
    ensures t.engineVersionAtCompletion == Some(written) ==> t.SpansAnUpdate()
    ensures t.engineVersionAtAdmission == Some(written) ==> t.AdmissionAgrees() == Some(false)
  {
    LabelRoundTrip(t.binding.version);
  }

  // ----------------------------------------------------------------- JSON values

  datatype Json =
    | JNull
    | JBool(b: bool)
    | JInt(i: int)
    | JReal(r: real)
    | JStr(s: string)
    | JArr(items: seq<Json>)
    | JObj(fields: map<string, Json>)

  function StrOrNull(o: Option<string>): Json {
    if o.Some? then JStr(o.value) else JNull
  }

  function ProvenanceToJson(p: WeightProvenance): Json {
    JObj(map[
      "checkpoint" := StrOrNull(p.checkpoint),
      "run_id" := StrOrNull(p.runId),
      "step" := if p.step.Some? then JInt(p.step.value) else JNull])
  }

  function IdentityToJson(identity: WeightIdentity): Json {
    JObj(map[
      "digest" := JStr(identity.digest),
      "manifest_digest" := StrOrNull(identity.manifestDigest),
      "num_tensors" := if identity.numTensors.Some? then JInt(identity.numTensors.value) else JNull,
      "source" := if identity.source.Some? then ProvenanceToJson(identity.source.value) else JNull])
  }

  function Ints(items: seq<int>): Json {
    JArr(seq(|items|, i requires 0 <= i < |items| => JInt(items[i])))
  }

  function Reals(items: seq<real>): Json {
    JArr(seq(|items|, i requires 0 <= i < |items| => JReal(items[i])))
  }

  function ToFields(t: Trajectory): map<string, Json> {
    map[
      "request_id" := JStr(t.binding.requestId),
      "version" := JStr(t.Version()),
      "identity" := IdentityToJson(t.binding.weightIdentity),
      "exactness" := JStr(if t.ReplayReady() then "declared-source" else "manifest-only"),
      "replay_ready" := JBool(t.ReplayReady()),
      "cache_salt" := JStr(t.binding.cacheSalt),
      "admitted_seq" := JInt(t.binding.admittedSeq),
      "prompt" := JStr(t.prompt),
      "text" := JStr(t.text),
      "token_ids" := Ints(t.tokenIds),
      "logprobs" := Reals(t.logprobs),
      "finish_reason" := StrOrNull(t.finishReason),
      "seconds" := if t.seconds.Some? then JReal(t.seconds.value) else JNull,
      "engine_version_at_admission" := StrOrNull(t.engineVersionAtAdmission),
      "engine_version_at_completion" := StrOrNull(t.engineVersionAtCompletion)]
  }

  function ToJson(t: Trajectory): Json {
    JObj(ToFields(t))
  }

  // --------------------------------------------------------------------- reading

  /** `data.get(key)`. */
  function Get(fields: map<string, Json>, key: string): Json {
    if key in fields then fields[key] else JNull
  }

  /** An absent or null field reads as None; any other kind of value is refused. */
  function ReadOptionalString(j: Json): Option<Option<string>> {
    match j
    case JNull => Some(None)
    case JStr(s) => Some(Some(s))
    case _ => None
  }

  function ReadOptionalInt(j: Json): Option<Option<int>> {
    match j
    case JNull => Some(None)
    case JInt(i) => Some(Some(i))
    case _ => None
  }

  function ReadOptionalReal(j: Json): Option<Option<real>> {
    match j
    case JNull => Some(None)
    case JReal(r) => Some(Some(r))
    case _ => None
  }

  function ReadString(j: Json): Option<string> {
    if j.JStr? then Some(j.s) else None
  }

  /** A missing list reads as the empty one. */
  function ReadInts(fields: map<string, Json>, key: string): Option<seq<int>> {
    if key !in fields then Some([])
    else if fields[key].JArr? && forall i :: 0 <= i < |fields[key].items| ==> fields[key].items[i].JInt? then
      var items := fields[key].items;
      Some(seq(|items|, i requires 0 <= i < |items| && items[i].JInt? => items[i].i))
    else None
  }

  function ReadReals(fields: map<string, Json>, key: string): Option<seq<real>> {
    if key !in fields then Some([])
    else if fields[key].JArr? && forall i :: 0 <= i < |fields[key].items| ==> fields[key].items[i].JReal? then
      var items := fields[key].items;
      Some(seq(|items|, i requires 0 <= i < |items| && items[i].JReal? => items[i].r))
    else None
  }

  /** `WeightProvenance(**source)`: unknown keys are refused, missing ones default. */
  function ReadProvenance(fields: map<string, Json>): Option<WeightProvenance> {
    if !(fields.Keys <= {"checkpoint", "run_id", "step"}) then None
    else
      match (ReadOptionalString(Get(fields, "checkpoint")), ReadOptionalString(Get(fields, "run_id")),
             ReadOptionalInt(Get(fields, "step")))
      case (Some(checkpoint), Some(runId), Some(step)) =>
        if step.Some? && step.value < 0 then None
        else
          var p := WeightProvenance(checkpoint, runId, if step.Some? then Some(step.value) else None);
          if p.Valid() then Some(p) else None
      case _ => None
  }

  function ReadSource(j: Json): Option<Option<WeightProvenance>> {
    match j
    case JNull => Some(None)
    case JObj(fields) => (match ReadProvenance(fields) case Some(p) => Some(Some(p)) case None => None)
    case _ => None
  }

  function ReadIdentity(j: Json): Option<WeightIdentity> {
    if !j.JObj? || "digest" !in j.fields then None
    else
      match (ReadString(j.fields["digest"]), ReadOptionalString(Get(j.fields, "manifest_digest")),
             ReadOptionalInt(Get(j.fields, "num_tensors")), ReadSource(Get(j.fields, "source")))
      case (Some(digest), Some(manifest), Some(count), Some(source)) =>
        var identity := WeightIdentity(digest, count, manifest, source);
        if identity.Valid() then Some(identity) else None
      case _ => None
  }

  const REQUIRED := {"request_id", "version", "identity", "cache_salt", "admitted_seq", "prompt", "text"}

  function ReadBinding(f: map<string, Json>): Option<RolloutBinding>
    requires REQUIRED <= f.Keys
  {
    match (ReadString(f["request_id"]), ReadString(f["version"]), ReadIdentity(f["identity"]), ReadString(f["cache_salt"]))
    case (Some(id), Some(version), Some(identity), Some(salt)) =>
      (match ParseLabel(version)
       case Some(v) =>
         if f["admitted_seq"].JInt? && f["admitted_seq"].i >= 0
         then Some(RolloutBinding(id, v, identity, salt, f["admitted_seq"].i))
         else None
       case None => None)
    case _ => None
  }

  /** None stands for every exception on the way. */
  function FromFields(f: map<string, Json>): (r: Option<Trajectory>)
    ensures r.Some? ==> r.value.Valid()
  {
    if !(REQUIRED <= f.Keys) then None
    else
      match (ReadBinding(f), ReadString(f["prompt"]), ReadString(f["text"]))
      case (Some(binding), Some(prompt), Some(text)) =>
        (match (ReadInts(f, "token_ids"), ReadReals(f, "logprobs"))
         case (Some(tokens), Some(logprobs)) =>
           (match (ReadOptionalString(Get(f, "finish_reason")), ReadOptionalReal(Get(f, "seconds")),
                   ReadOptionalString(Get(f, "engine_version_at_admission")),
                   ReadOptionalString(Get(f, "engine_version_at_completion")))
            case (Some(reason), Some(seconds), Some(admission), Some(completion)) =>
              var t := Trajectory(binding, prompt, text, tokens, logprobs, reason, seconds, admission, completion);
              if t.Valid() then Some(t) else None
            case _ => None)
         case _ => None)
      case _ => None
  }

  function FromJson(j: Json): (r: Option<Trajectory>)
    ensures r.Some? ==> r.value.Valid()
  {
    if j.JObj? then FromFields(j.fields) else None
  }

  // ------------------------------------------------------------------ round trips

  /** A provenance comes back exactly if it may be constructed; otherwise reading raises. */
  lemma ProvenanceSurvives(p: WeightProvenance)
    ensures ReadSource(ProvenanceToJson(p)) == if p.Valid() then Some(Some(p)) else None
  {
    var fields := ProvenanceToJson(p).fields;
    assert fields.Keys == {"checkpoint", "run_id", "step"};
    assert Get(fields, "checkpoint") == StrOrNull(p.checkpoint);
    assert Get(fields, "run_id") == StrOrNull(p.runId);
    assert Get(fields, "step") == (if p.step.Some? then JInt(p.step.value) else JNull);
  }

  lemma IdentitySurvives(identity: WeightIdentity)
    ensures ReadIdentity(IdentityToJson(identity)) == if identity.Valid() then Some(identity) else None
  {
    var fields := IdentityToJson(identity).fields;
    assert Get(fields, "manifest_digest") == StrOrNull(identity.manifestDigest);
    if identity.source.Some? {
      ProvenanceSurvives(identity.source.value);
    }
  }

  /** The fields a binding is read from. */
  predicate CarriesBinding(f: map<string, Json>, b: RolloutBinding) {
    && REQUIRED <= f.Keys
    && f["request_id"] == JStr(b.requestId)
    && f["version"] == JStr(b.version.Label())
    && f["identity"] == IdentityToJson(b.weightIdentity)
    && f["cache_salt"] == JStr(b.cacheSalt)
    && f["admitted_seq"] == JInt(b.admittedSeq)
  }

  predicate CarriesNumbers(f: map<string, Json>, tokens: seq<int>, logprobs: seq<real>) {
    && (if "token_ids" in f then f["token_ids"] == Ints(tokens) else tokens == [])
    && (if "logprobs" in f then f["logprobs"] == Reals(logprobs) else logprobs == [])
  }

  predicate CarriesRest(f: map<string, Json>, t: Trajectory) {
    && REQUIRED <= f.Keys
    && f["prompt"] == JStr(t.prompt)
    && f["text"] == JStr(t.text)
    && Get(f, "finish_reason") == StrOrNull(t.finishReason)
    && Get(f, "seconds") == (if t.seconds.Some? then JReal(t.seconds.value) else JNull)
    && Get(f, "engine_version_at_admission") == StrOrNull(t.engineVersionAtAdmission)
    && Get(f, "engine_version_at_completion") == StrOrNull(t.engineVersionAtCompletion)
  }

  lemma BindingSurvives(f: map<string, Json>, b: RolloutBinding)
    requires CarriesBinding(f, b)
    ensures ReadBinding(f) == if b.weightIdentity.Valid() then Some(b) else None
  {
    IdentitySurvives(b.weightIdentity);
    LabelRoundTrip(b.version);
  }

  lemma NumbersSurvive(f: map<string, Json>, tokens: seq<int>, logprobs: seq<real>)
    requires CarriesNumbers(f, tokens, logprobs)
    ensures ReadInts(f, "token_ids") == Some(tokens) && ReadReals(f, "logprobs") == Some(logprobs)
  {
    assert ReadInts(f, "token_ids").value == tokens;
    assert ReadReals(f, "logprobs").value == logprobs;
  }

  lemma FieldsSurvive(f: map<string, Json>, t: Trajectory)
    requires CarriesBinding(f, t.binding) && CarriesNumbers(f, t.tokenIds, t.logprobs) && CarriesRest(f, t)
    ensures FromFields(f) == if t.Valid() then Some(t) else None
  {
    BindingSurvives(f, t.binding);
    NumbersSurvive(f, t.tokenIds, t.logprobs);
  }

  /** The keys a reader can do without: the derived ones, and those with a default. */
  const OPTIONAL := {
    "exactness", "replay_ready", "token_ids", "logprobs", "finish_reason", "seconds", "engine_version_at_admission",
    "engine_version_at_completion"}

  /** The record with the default of every key in `dropped`. */
  function Without(t: Trajectory, dropped: set<string>): Trajectory {
    t.(tokenIds := if "token_ids" in dropped then [] else t.tokenIds,
       logprobs := if "logprobs" in dropped then [] else t.logprobs,
       finishReason := if "finish_reason" in dropped then None else t.finishReason,
       seconds := if "seconds" in dropped then None else t.seconds,
       engineVersionAtAdmission := if "engine_version_at_admission" in dropped then None else t.engineVersionAtAdmission,
       engineVersionAtCompletion := if "engine_version_at_completion" in dropped then None else t.engineVersionAtCompletion)
  }

  lemma WrittenKeys(t: Trajectory)
    ensures ToFields(t).Keys == REQUIRED + OPTIONAL && REQUIRED !! OPTIONAL
  {
  }

  lemma WrittenBinding(t: Trajectory)
    ensures CarriesBinding(ToFields(t), t.binding)
  {
  }

  lemma WrittenTexts(t: Trajectory)
    ensures "prompt" in ToFields(t) && ToFields(t)["prompt"] == JStr(t.prompt)
    ensures "text" in ToFields(t) && ToFields(t)["text"] == JStr(t.text)
    ensures "finish_reason" in ToFields(t) && ToFields(t)["finish_reason"] == StrOrNull(t.finishReason)
  {
  }

  lemma WrittenObservations(t: Trajectory)
    ensures Get(ToFields(t), "seconds") == (if t.seconds.Some? then JReal(t.seconds.value) else JNull)
    ensures Get(ToFields(t), "engine_version_at_admission") == StrOrNull(t.engineVersionAtAdmission)
    ensures Get(ToFields(t), "engine_version_at_completion") == StrOrNull(t.engineVersionAtCompletion)
  {
  }

  lemma WrittenNumbers(t: Trajectory)
    ensures CarriesNumbers(ToFields(t), t.tokenIds, t.logprobs)
  {
  }

  /** Every record says outright, twice, whether its identity declares a source. */
  lemma ReplayClaimsAreWritten(t: Trajectory)
    ensures var source := t.binding.weightIdentity.source;
      && Get(ToFields(t), "exactness") == JStr(if source.Some? then "declared-source" else "manifest-only")
      && Get(ToFields(t), "replay_ready") == JBool(source.Some?)
  {
  }

  /** An identity's own keys. */
  lemma IdentityKeysAreWritten(identity: WeightIdentity)
    ensures var j := IdentityToJson(identity);
      && j.JObj? && j.fields.Keys == {"digest", "manifest_digest", "num_tensors", "source"}
      && j.fields["digest"] == JStr(identity.digest)
      && j.fields["manifest_digest"] == StrOrNull(identity.manifestDigest)
      && j.fields["num_tensors"] == (if identity.numTensors.Some? then JInt(identity.numTensors.value) else JNull)
      && (identity.source.None? <==> j.fields["source"] == JNull)
  {
  }

  lemma DroppedFields(f: map<string, Json>, dropped: set<string>)
    ensures forall key :: Get(f - dropped, key) == if key in dropped then JNull else Get(f, key)
  {
  }

  lemma DroppedNumbers(t: Trajectory, dropped: set<string>)
    ensures CarriesNumbers(
      ToFields(t) - dropped, Without(t, dropped).tokenIds, Without(t, dropped).logprobs)
  {
    var f, tokens, logprobs := ToFields(t), "token_ids", "logprobs";
    WrittenKeys(t);
    WrittenNumbers(t);
    assert tokens in f - dropped <==> tokens !in dropped;
    assert logprobs in f - dropped <==> logprobs !in dropped;
  }

  lemma DroppedBinding(t: Trajectory, dropped: set<string>)
    requires dropped <= OPTIONAL
    ensures CarriesBinding(ToFields(t) - dropped, t.binding)
  {
    var f := ToFields(t);
    WrittenKeys(t);
    WrittenBinding(t);
    assert forall key :: key in REQUIRED ==> key in f - dropped && (f - dropped)[key] == f[key];
  }

  lemma DroppedRest(t: Trajectory, dropped: set<string>)
    requires dropped <= OPTIONAL
    ensures CarriesRest(ToFields(t) - dropped, Without(t, dropped))
  {
    var f := ToFields(t);
    WrittenKeys(t);
    WrittenTexts(t);
    WrittenObservations(t);
    DroppedFields(f, dropped);
    assert forall key :: key in REQUIRED ==> key in f - dropped && (f - dropped)[key] == f[key];
  }

  /**
    * A record reads back with the defaults of whatever keys a writer left out, exactly if the result
    * may be constructed; a record written before logprobs existed still loads.
    */
  lemma OldRecordsLoad(t: Trajectory, dropped: set<string>)
    requires dropped <= OPTIONAL
    ensures FromFields(ToFields(t) - dropped) == if Without(t, dropped).Valid() then Some(Without(t, dropped)) else None
  {
    DroppedBinding(t, dropped);
    DroppedNumbers(t, dropped);
    DroppedRest(t, dropped);
    FieldsSurvive(ToFields(t) - dropped, Without(t, dropped));
  }

  /** Every record that may be constructed survives the trip, provenance and replay claim included; no other is let in. */
  lemma JsonRoundTrip(t: Trajectory)
    ensures FromJson(ToJson(t)) == if t.Valid() then Some(t) else None
  {
    assert ToFields(t) - {} == ToFields(t);
    OldRecordsLoad(t, {});
  }

  /** A provenance is read exactly from its own three keys, and none beside them. */
  lemma ProvenancesAreReadExactly(fields: map<string, Json>, p: WeightProvenance)
    ensures ReadProvenance(fields) == Some(p) <==>
      && p.Valid() && fields.Keys <= {"checkpoint", "run_id", "step"}
      && Get(fields, "checkpoint") == StrOrNull(p.checkpoint) && Get(fields, "run_id") == StrOrNull(p.runId)
      && Get(fields, "step") == if p.step.Some? then JInt(p.step.value) else JNull
  {
  }

  /** Whatever is read says what its fields say. */
  lemma ReadRecordsCarryTheirFields(f: map<string, Json>)
    requires FromFields(f).Some?
    ensures var t := FromFields(f).value;
      && CarriesRest(f, t)
      && f["request_id"] == JStr(t.binding.requestId) && f["cache_salt"] == JStr(t.binding.cacheSalt)
      && f["version"].JStr? && ParseLabel(f["version"].s) == Some(t.binding.version)
      && f["admitted_seq"] == JInt(t.binding.admittedSeq)
  {
  }

  /** What may be constructed, from scratch: a digest is its prefix and 64 hex digits, a source names something. */
  ghost predicate Constructible(t: Trajectory) {
    var identity := t.binding.weightIdentity;
    && t.prompt != "" && |t.logprobs| in {0, |t.tokenIds|} && (t.seconds.Some? ==> 0.0 <= t.seconds.value)
    && (exists h: Hex64 :: identity.digest == "sha256:" + h)
    && (identity.manifestDigest.Some? ==> exists text: string :: identity.manifestDigest.value == "sha256:" + text)
    && (identity.numTensors.Some? ==> 0 <= identity.numTensors.value)
    && (identity.source.Some? ==>
          && identity.source.value != WeightProvenance(None, None, None)
          && identity.source.value.checkpoint != Some("") && identity.source.value.runId != Some(""))
  }

  lemma PrefixedTexts(text: string)
    ensures StartsWith(text, DIGEST_PREFIX) <==> exists rest: string :: text == "sha256:" + rest
    ensures StartsWith(text, DIGEST_PREFIX) && |text| == |DIGEST_PREFIX| + 64 && AllHex(text[|DIGEST_PREFIX|..])
       <==> exists h: Hex64 :: text == "sha256:" + h
  {
    if StartsWith(text, DIGEST_PREFIX) {
      assert text == "sha256:" + text[|DIGEST_PREFIX|..];
      if |text| == |DIGEST_PREFIX| + 64 && AllHex(text[|DIGEST_PREFIX|..]) {
        var h: Hex64 := text[|DIGEST_PREFIX|..];
        assert text == "sha256:" + h;
      }
    }
    if h: Hex64 :| text == "sha256:" + h {
      assert text[|DIGEST_PREFIX|..] == h;
    }
  }

  lemma ValidIsConstructible(t: Trajectory)
    ensures t.Valid() <==> Constructible(t)
  {
    var identity := t.binding.weightIdentity;
    PrefixedTexts(identity.digest);
    if identity.manifestDigest.Some? {
      PrefixedTexts(identity.manifestDigest.value);
    }
  }
}

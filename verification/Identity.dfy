/** Weight identities: canonical manifest and provenance encodings, and the digests over them. */
module Identity {
  import opened Prelude
  import opened Labels
  import opened Text

  const SEP: char := '\U{1F}'
  const LINE: char := '\n'
  const DIGEST_PREFIX := "sha256:"

  predicate IsHex(c: char) {
    '0' <= c <= '9' || 'a' <= c <= 'f'
  }

  predicate AllHex(s: string) {
    forall i :: 0 <= i < |s| ==> IsHex(s[i])
  }

  /** What a SHA-256 hex digest looks like; the hash itself is a parameter everywhere. */
  type Hex64 = s: string | |s| == 64 && AllHex(s) witness seq(64, _ => '0')
  type Hash = string -> Hex64

  datatype ParamSpec = ParamSpec(name: string, dtype: string, shape: seq<nat>) {
    function Canonical(): string {
      Join([name, dtype, Dims(shape)], SEP)
    }

    /** The checks of __post_init__ that types do not give. */
    predicate Valid() {
      name != "" && dtype != ""
    }

    /** No field separator where it could be mistaken for one; newlines do no harm. */
    predicate Clean() {
      Free(name, SEP) && Free(dtype, SEP)
    }
  }

  datatype WeightProvenance = WeightProvenance(
    checkpoint: Option<string>, runId: Option<string>, step: Option<nat>)
  {
    predicate Valid() {
      && (checkpoint.Some? ==> checkpoint.value != "")
      && (runId.Some? ==> runId.value != "")
      && (checkpoint.Some? || runId.Some? || step.Some?)
    }

    predicate Clean() {
      && (checkpoint.Some? ==> Free(checkpoint.value, SEP))
      && (runId.Some? ==> Free(runId.value, SEP))
    }

    function Parts(): seq<string> {
      (if checkpoint.Some? then [CHECKPOINT + checkpoint.value] else [])
      + (if runId.Some? then [RUN_ID + runId.value] else [])
      + (if step.Some? then [STEP + Decimal(step.value)] else [])
    }

    /** Absent fields are omitted, not rendered. */
    function Canonical(): string {
      Join(Parts(), SEP)
    }
  }

  const CHECKPOINT := "checkpoint="
  const RUN_ID := "run_id="
  const STEP := "step="

  datatype WeightIdentity = WeightIdentity(
    digest: string, numTensors: Option<int>, manifestDigest: Option<string>, source: Option<WeightProvenance>)
  {
    predicate Valid() {
      && StartsWith(digest, DIGEST_PREFIX)
      && |digest| == |DIGEST_PREFIX| + 64 && AllHex(digest[|DIGEST_PREFIX|..])
      && (numTensors.Some? ==> numTensors.value >= 0)
      && (manifestDigest.Some? ==> StartsWith(manifestDigest.value, DIGEST_PREFIX))
      && (source.Some? ==> source.value.Valid())
    }

    /** True for "declared-source", false for "manifest-only". */
    predicate DeclaresSource() {
      source.Some?
    }
  }

  datatype UpdateTarget = UpdateTarget(version: WeightVersion, identity: WeightIdentity) {
    function Label(): string {
      version.Label()
    }
  }

  predicate AllClean(specs: seq<ParamSpec>) {
    forall i :: 0 <= i < |specs| ==> specs[i].Clean()
  }

  // ------------------------------------------------------- encoding of a spec

  function DimTexts(shape: seq<nat>): seq<string> {
    seq(|shape|, i requires 0 <= i < |shape| => Decimal(shape[i]))
  }

  function Dims(shape: seq<nat>): string {
    Join(DimTexts(shape), ',')
  }

  predicate AllNumerals(parts: seq<string>) {
    forall i :: 0 <= i < |parts| ==> AllDigits(parts[i])
  }

  function ParseDims(s: string): Option<seq<nat>> {
    if s == "" then Some([]) else
      var parts := Split(s, ',');
      if AllNumerals(parts)
      then Some(seq(|parts|, i requires 0 <= i < |parts| => ParseDecimal(parts[i])))
      else None
  }

  function ParseSpec(line: string): Option<ParamSpec> {
    var fields := Split(line, SEP);
    if |fields| != 3 then None else
      match ParseDims(fields[2])
      case None => None
      case Some(shape) => Some(ParamSpec(fields[0], fields[1], shape))
  }

  lemma DimTextsAreNumerals(shape: seq<nat>)
    ensures var parts := DimTexts(shape);
      && AllNumerals(parts) && AllFree(parts, ',') && AllFree(parts, SEP) && AllFree(parts, LINE)
      && forall i :: 0 <= i < |parts| ==> parts[i] != "" && ParseDecimal(parts[i]) == shape[i]
  {
    forall i | 0 <= i < |shape|
      ensures var t := DimTexts(shape)[i];
        AllDigits(t) && Free(t, ',') && Free(t, SEP) && Free(t, LINE) && t != "" && ParseDecimal(t) == shape[i]
    {
      DecimalRoundTrip(shape[i]);
    }
  }

  lemma DimsRoundTrip(shape: seq<nat>)
    ensures ParseDims(Dims(shape)) == Some(shape)
    ensures Free(Dims(shape), SEP) && Free(Dims(shape), LINE)
  {
    var parts := DimTexts(shape);
    DimTextsAreNumerals(shape);
    JoinFree(parts, ',', SEP);
    JoinFree(parts, ',', LINE);
    if shape != [] {
      SplitJoin(parts, ',');
      assert Dims(shape) != "" by {
        assert parts[0] != "";
      }
      var parsed := seq(|parts|, i requires 0 <= i < |parts| => ParseDecimal(parts[i]));
      assert parsed == shape;
    }
  }

  lemma SpecRoundTrip(spec: ParamSpec)
    requires spec.Clean()
    ensures ParseSpec(spec.Canonical()) == Some(spec)
  {
    DimsRoundTrip(spec.shape);
    SplitJoin([spec.name, spec.dtype, Dims(spec.shape)], SEP);
  }

  // --------------------------------------------------- encoding of a manifest

  /** The text fed to the manifest hasher, one line a spec. */
  function ManifestText(specs: seq<ParamSpec>): string {
    if specs == [] then "" else specs[0].Canonical() + [LINE] + ManifestText(specs[1..])
  }

  /** Reads up to the next `c`: what stands before it and what follows; None without one. */
  function Upto(text: string, c: char): Option<(string, string)> {
    var i := FirstIndex(text, c);
    if i == |text| then None else Some((text[..i], text[i + 1..]))
  }

  /** Name and dtype end at a field separator, dimensions at a newline. */
  function ParseManifest(text: string): Option<seq<ParamSpec>>
    decreases |text|
  {
    if text == "" then Some([]) else
      match Upto(text, SEP)
      case None => None
      case Some((name, afterName)) =>
        match Upto(afterName, SEP)
        case None => None
        case Some((dtype, afterDtype)) =>
          match Upto(afterDtype, LINE)
          case None => None
          case Some((dims, afterDims)) =>
            match ParseDims(dims)
            case None => None
            case Some(shape) =>
              match ParseManifest(afterDims)
              case None => None
              case Some(rest) => Some([ParamSpec(name, dtype, shape)] + rest)
  }

  lemma UptoFree(head: string, c: char, tail: string)
    requires Free(head, c)
    ensures Upto(head + [c] + tail, c) == Some((head, tail))
  {
    FirstIndexAfterFree(head, c, tail);
    var text := head + [c] + tail;
    assert text[..|head|] == head && text[|head| + 1..] == tail;
  }

  lemma JoinThree(x: string, y: string, z: string)
    ensures Join([x, y, z], SEP) == x + [SEP] + (y + [SEP] + z)
  {
    var all, two := [x, y, z], [y, z];
    assert all[1..] == two && two[1..] == [z];
    assert Join(two, SEP) == y + [SEP] + Join([z], SEP);
  }

  lemma ParseFirstLine(spec: ParamSpec, rest: string)
    requires spec.Clean() && ParseManifest(rest).Some?
    ensures ParseManifest(spec.Canonical() + [LINE] + rest) == Some([spec] + ParseManifest(rest).value)
  {
    var dims := Dims(spec.shape);
    DimsRoundTrip(spec.shape);
    JoinThree(spec.name, spec.dtype, dims);
    var line := dims + [LINE] + rest;
    var fields := spec.dtype + [SEP] + line;
    var text := spec.Canonical() + [LINE] + rest;
    assert text == spec.name + [SEP] + fields;
    UptoFree(spec.name, SEP, fields);
    UptoFree(spec.dtype, SEP, line);
    UptoFree(dims, LINE, rest);
  }

  /** A parser recovers every manifest whose names and dtypes hold no field separator. */
  lemma {:induction false} ManifestRoundTrip(specs: seq<ParamSpec>)
    requires AllClean(specs)
    ensures ParseManifest(ManifestText(specs)) == Some(specs)
  {
    if specs != [] {
      ManifestRoundTrip(specs[1..]);
      ParseFirstLine(specs[0], ManifestText(specs[1..]));
      assert specs == [specs[0]] + specs[1..];
    }
  }

  lemma OneLine(name: string, dim: nat)
    ensures dim < 10 ==> ParamSpec(name, "f", [dim]).Canonical() == name + [SEP] + ("f" + [SEP] + [Digit(dim)])
  {
    if dim < 10 {
      assert DimTexts([dim]) == [[Digit(dim)]];
      JoinThree(name, "f", [Digit(dim)]);
    }
  }

  /** Without the cleanliness hypothesis two different manifests share one encoding. */
  lemma SeparatorsBreakTheEncoding()
    ensures var a := [ParamSpec("w\U{1F}f\U{1F}1\nv", "f", [2])];
            var b := [ParamSpec("w", "f", [1]), ParamSpec("v", "f", [2])];
            a != b && ManifestText(a) == ManifestText(b)
  {
    var a := [ParamSpec("w\U{1F}f\U{1F}1\nv", "f", [2])];
    var b := [ParamSpec("w", "f", [1]), ParamSpec("v", "f", [2])];
    OneLine("w\U{1F}f\U{1F}1\nv", 2);
    OneLine("w", 1);
    OneLine("v", 2);
    assert |a| != |b| && a[1..] == [] && b[1..] == [b[1]] && b[1..][1..] == [];
    assert ManifestText([]) == "";
    var one, two := "w\U{1F}f\U{1F}1", "v\U{1F}f\U{1F}2";
    assert b[0].Canonical() == one && b[1].Canonical() == two;
    assert a[0].Canonical() == one + "\n" + two;
  }

  // ------------------------------------------------- encoding of a provenance

  function TakeField(fields: seq<string>, key: string): (Option<string>, seq<string>) {
    if fields != [] && StartsWith(fields[0], key)
    then (Some(fields[0][|key|..]), fields[1..])
    else (None, fields)
  }

  function ParseProvenance(text: string): Option<WeightProvenance> {
    var (checkpoint, afterCheckpoint) := TakeField(Split(text, SEP), CHECKPOINT);
    var (runId, afterRun) := TakeField(afterCheckpoint, RUN_ID);
    var (step, rest) := TakeField(afterRun, STEP);
    if rest != [] then None
    else if step.None? then Some(WeightProvenance(checkpoint, runId, None))
    else if AllDigits(step.value) then Some(WeightProvenance(checkpoint, runId, Some(ParseDecimal(step.value))))
    else None
  }

  lemma TakeKeyed(key: string, value: string, rest: seq<string>)
    ensures TakeField([key + value] + rest, key) == (Some(value), rest)
  {
    assert (key + value)[..|key|] == key && (key + value)[|key|..] == value;
    assert ([key + value] + rest)[1..] == rest;
  }

  lemma SkipKey(key: string, fields: seq<string>)
    requires key != "" && (fields == [] || (fields[0] != "" && fields[0][0] != key[0]))
    ensures TakeField(fields, key) == (None, fields)
  {
  }

  lemma ProvenancePartsFree(p: WeightProvenance)
    requires p.Clean()
    ensures AllFree(p.Parts(), SEP)
  {
    if p.step.Some? {
      DecimalRoundTrip(p.step.value);
    }
  }

  /** Omitting absent fields loses nothing: the three keys differ in their first letter. */
  lemma ProvenanceRoundTrip(p: WeightProvenance)
    requires p.Valid() && p.Clean()
    ensures ParseProvenance(p.Canonical()) == Some(p)
  {
    var parts := p.Parts();
    ProvenancePartsFree(p);
    SplitJoin(parts, SEP);
    var last := if p.step.Some? then [STEP + Decimal(p.step.value)] else [];
    var mid := (if p.runId.Some? then [RUN_ID + p.runId.value] else []) + last;
    if p.step.Some? {
      DecimalRoundTrip(p.step.value);
      TakeKeyed(STEP, Decimal(p.step.value), []);
      assert last == last + [];
    } else {
      SkipKey(STEP, last);
    }
    if p.runId.Some? { TakeKeyed(RUN_ID, p.runId.value, last); } else { SkipKey(RUN_ID, mid); }
    if p.checkpoint.Some? {
      TakeKeyed(CHECKPOINT, p.checkpoint.value, mid);
      assert parts == [CHECKPOINT + p.checkpoint.value] + mid;
    } else {
      assert parts == mid;
      SkipKey(CHECKPOINT, parts);
    }
  }

  // ------------------------------------------------------------ sorting by name

  predicate StrLe(a: string, b: string) {
    a == "" || (b != "" && (a[0] < b[0] || (a[0] == b[0] && StrLe(a[1..], b[1..]))))
  }

  lemma {:induction false} StrLeTotal(a: string, b: string)
    ensures StrLe(a, b) || StrLe(b, a)
    ensures StrLe(a, b) && StrLe(b, a) ==> a == b
  {
    if a != "" && b != "" && a[0] == b[0] {
      StrLeTotal(a[1..], b[1..]);
      assert a == [a[0]] + a[1..] && b == [b[0]] + b[1..];
    }
  }

  lemma {:induction false} StrLeTransitive(a: string, b: string, c: string)
    requires StrLe(a, b) && StrLe(b, c)
    ensures StrLe(a, c)
  {
    if a != "" && a[0] == b[0] == c[0] {
      StrLeTransitive(a[1..], b[1..], c[1..]);
    }
  }

  function Insert(x: ParamSpec, specs: seq<ParamSpec>): seq<ParamSpec> {
    if specs == [] || StrLe(x.name, specs[0].name) then [x] + specs
    else [specs[0]] + Insert(x, specs[1..])
  }

  function SortByName(specs: seq<ParamSpec>): seq<ParamSpec> {
    if specs == [] then [] else Insert(specs[0], SortByName(specs[1..]))
  }

  predicate Sorted(specs: seq<ParamSpec>) {
    forall i, j :: 0 <= i < j < |specs| ==> StrLe(specs[i].name, specs[j].name)
  }

  lemma {:induction false} InsertKeepsSorted(x: ParamSpec, specs: seq<ParamSpec>)
    requires Sorted(specs)
    ensures Sorted(Insert(x, specs))
    ensures multiset(Insert(x, specs)) == multiset([x] + specs)
  {
    if specs == [] {
    } else if StrLe(x.name, specs[0].name) {
      forall j | 0 <= j < |specs| ensures StrLe(x.name, specs[j].name) {
        if j > 0 {
          StrLeTransitive(x.name, specs[0].name, specs[j].name);
        }
      }
    } else {
      StrLeTotal(x.name, specs[0].name);
      InsertKeepsSorted(x, specs[1..]);
      var tail := Insert(x, specs[1..]);
      assert specs == [specs[0]] + specs[1..];
      assert multiset(tail) == multiset{x} + multiset(specs[1..]);
      forall j | 0 <= j < |tail| ensures StrLe(specs[0].name, tail[j].name) {
        assert tail[j] in multiset(tail);
        if tail[j] != x {
          assert tail[j] in specs[1..];
        }
      }
    }
  }

  lemma {:induction false} SortIsSortedPermutation(specs: seq<ParamSpec>)
    ensures Sorted(SortByName(specs)) && multiset(SortByName(specs)) == multiset(specs)
  {
    if specs != [] {
      SortIsSortedPermutation(specs[1..]);
      InsertKeepsSorted(specs[0], SortByName(specs[1..]));
      assert specs == [specs[0]] + specs[1..];
    }
  }

  function Names(m: multiset<ParamSpec>): set<string> {
    set x | x in m :: x.name
  }

  /** As many names as specs. */
  predicate DistinctNames(specs: seq<ParamSpec>) {
    |Names(multiset(specs))| == |specs|
  }

  lemma NamesOfCons(h: ParamSpec, t: seq<ParamSpec>)
    ensures Names(multiset([h] + t)) == {h.name} + Names(multiset(t))
  {
  }

  lemma NamesHoldEachName(specs: seq<ParamSpec>, j: nat)
    requires j < |specs|
    ensures specs[j].name in Names(multiset(specs))
  {
    assert specs[j] in multiset(specs);
  }

  lemma {:induction false} NamesAreFew(specs: seq<ParamSpec>)
    ensures |Names(multiset(specs))| <= |specs|
  {
    if specs != [] {
      assert specs == [specs[0]] + specs[1..];
      NamesOfCons(specs[0], specs[1..]);
      NamesAreFew(specs[1..]);
    }
  }

  lemma TailIsDistinct(specs: seq<ParamSpec>)
    requires DistinctNames(specs) && specs != []
    ensures DistinctNames(specs[1..]) && specs[0].name !in Names(multiset(specs[1..]))
  {
    var first, names := specs[0].name, Names(multiset(specs[1..]));
    assert specs == [specs[0]] + specs[1..];
    NamesOfCons(specs[0], specs[1..]);
    NamesAreFew(specs[1..]);
    assert first in names ==> {first} + names == names;
  }

  lemma {:induction false} DistinctNamesDiffer(specs: seq<ParamSpec>, i: nat, j: nat)
    requires DistinctNames(specs) && i < j < |specs|
    ensures specs[i].name != specs[j].name
  {
    TailIsDistinct(specs);
    if i == 0 {
      NamesHoldEachName(specs[1..], j - 1);
    } else {
      DistinctNamesDiffer(specs[1..], i - 1, j - 1);
    }
  }

  lemma OneSpecIsDistinct(s: ParamSpec)
    ensures DistinctNames([s])
  {
    assert Names(multiset([s])) == {s.name};
  }

  lemma DistinctByMultiset(a: seq<ParamSpec>, b: seq<ParamSpec>)
    requires multiset(a) == multiset(b)
    ensures DistinctNames(a) <==> DistinctNames(b)
  {
    assert |a| == |multiset(a)| == |b|;
  }

  lemma LeastNameFirst(a: seq<ParamSpec>, x: ParamSpec)
    requires Sorted(a) && x in multiset(a)
    ensures StrLe(a[0].name, x.name)
  {
    var i :| 0 <= i < |a| && a[i] == x;
    StrLeTotal(x.name, x.name);
  }

  lemma SameHead(a: seq<ParamSpec>, b: seq<ParamSpec>)
    requires Sorted(a) && Sorted(b) && DistinctNames(a) && multiset(a) == multiset(b) && a != [] && b != []
    ensures a[0] == b[0]
  {
    assert a[0] in multiset(b) && b[0] in multiset(a);
    LeastNameFirst(a, b[0]);
    LeastNameFirst(b, a[0]);
    StrLeTotal(a[0].name, b[0].name);
    var j :| 0 <= j < |a| && a[j] == b[0];
    if j > 0 {
      DistinctNamesDiffer(a, 0, j);
    }
  }

  lemma TailMultiset(a: seq<ParamSpec>)
    requires a != []
    ensures multiset(a[1..]) == multiset(a) - multiset{a[0]}
  {
    assert a == [a[0]] + a[1..];
  }

  lemma TailsAgree(a: seq<ParamSpec>, b: seq<ParamSpec>)
    requires Sorted(a) && Sorted(b) && DistinctNames(a) && multiset(a) == multiset(b) && a != [] && b != []
    ensures a[0] == b[0] && multiset(a[1..]) == multiset(b[1..])
    ensures Sorted(a[1..]) && Sorted(b[1..]) && DistinctNames(a[1..])
  {
    SameHead(a, b);
    TailMultiset(a);
    TailMultiset(b);
    TailIsDistinct(a);
  }

  lemma {:induction false} SortedDistinctUnique(a: seq<ParamSpec>, b: seq<ParamSpec>)
    requires Sorted(a) && Sorted(b) && DistinctNames(a) && multiset(a) == multiset(b)
    ensures a == b
  {
    assert |a| == |multiset(a)| == |multiset(b)| == |b|;
    if a != [] {
      TailsAgree(a, b);
      SortedDistinctUnique(a[1..], b[1..]);
      assert a == [a[0]] + a[1..] && b == [b[0]] + b[1..];
    }
  }

  // ------------------------------------------------------------------ identities

  function ManifestDigest(specs: seq<ParamSpec>, hash: Hash): string {
    DIGEST_PREFIX + hash(ManifestText(specs))
  }

  function ProvenanceText(p: WeightProvenance, manifestDigest: string): string {
    p.Canonical() + [LINE] + manifestDigest + [LINE]
  }

  /** None stands for the duplicate-name error. */
  function IdentityOf(specs: seq<ParamSpec>, source: Option<WeightProvenance>, hash: Hash): Option<WeightIdentity> {
    var ordered := SortByName(specs);
    if !DistinctNames(ordered) then None else
      var manifest := ManifestDigest(ordered, hash);
      match source
      case None => Some(WeightIdentity(manifest, Some(|ordered|), Some(manifest), None))
      case Some(p) =>
        var combined := DIGEST_PREFIX + hash(ProvenanceText(p, manifest));
        Some(WeightIdentity(combined, Some(|ordered|), Some(manifest), source))
  }

  lemma {:induction false} ManifestTextAppend(front: seq<ParamSpec>, spec: ParamSpec)
    ensures ManifestText(front + [spec]) == ManifestText(front) + spec.Canonical() + [LINE]
  {
    if front == [] {
      assert [spec][1..] == [];
    } else {
      ManifestTextAppend(front[1..], spec);
      assert (front + [spec])[1..] == front[1..] + [spec];
      assert front[0].Canonical() + [LINE] + (ManifestText(front[1..]) + spec.Canonical() + [LINE])
          == front[0].Canonical() + [LINE] + ManifestText(front[1..]) + spec.Canonical() + [LINE];
    }
  }

  /** What the hasher is fed, one spec at a time. */
  method FeedManifest(ordered: seq<ParamSpec>) returns (hashed: string)
    ensures hashed == ManifestText(ordered)
  {
    hashed := "";
    for i := 0 to |ordered|
      invariant hashed == ManifestText(ordered[..i])
    {
      ManifestTextAppend(ordered[..i], ordered[i]);
      assert ordered[..i + 1] == ordered[..i] + [ordered[i]];
      hashed := hashed + ordered[i].Canonical() + [LINE];
    }
    assert ordered[..|ordered|] == ordered;
  }

  method FromParamSpecs(specs: seq<ParamSpec>, source: Option<WeightProvenance>, hash: Hash)
    returns (r: Option<WeightIdentity>)
    ensures r == IdentityOf(specs, source, hash)
    ensures r.Some? <==> DistinctNames(specs)
  {
    var ordered := SortByName(specs);
    SortIsSortedPermutation(specs);
    DistinctByMultiset(specs, ordered);
    if !DistinctNames(ordered) {
      return None;
    }
    var hashed := FeedManifest(ordered);
    var manifest := DIGEST_PREFIX + hash(hashed);
    match source {
      case None =>
        r := Some(WeightIdentity(manifest, Some(|ordered|), Some(manifest), None));
      case Some(p) =>
        var combined := p.Canonical() + [LINE] + manifest + [LINE];
        r := Some(WeightIdentity(DIGEST_PREFIX + hash(combined), Some(|ordered|), Some(manifest), source));
    }
  }

  /** The text whose hash is an identity's digest. */
  function DigestText(ordered: seq<ParamSpec>, source: Option<WeightProvenance>, hash: Hash): string {
    if source.None? then ManifestText(ordered) else ProvenanceText(source.value, ManifestDigest(ordered, hash))
  }

  /** Every text hashed while computing the identity. */
  function Preimages(specs: seq<ParamSpec>, source: Option<WeightProvenance>, hash: Hash): set<string> {
    var ordered := SortByName(specs);
    {ManifestText(ordered), DigestText(ordered, source, hash)}
  }

  /** The hash has no collision among the given texts. */
  ghost predicate CollisionFree(hash: Hash, texts: set<string>) {
    forall x, y :: x in texts && y in texts && hash(x) == hash(y) ==> x == y
  }

  /** The identity, error included, depends on the specs only as a multiset. */
  lemma OrderIndependent(a: seq<ParamSpec>, b: seq<ParamSpec>, source: Option<WeightProvenance>, hash: Hash)
    requires multiset(a) == multiset(b)
    ensures IdentityOf(a, source, hash) == IdentityOf(b, source, hash)
  {
    SortIsSortedPermutation(a);
    SortIsSortedPermutation(b);
    DistinctByMultiset(SortByName(a), SortByName(b));
    if DistinctNames(SortByName(a)) {
      SortedDistinctUnique(SortByName(a), SortByName(b));
    }
  }

  lemma HexIsFree(h: Hex64, c: char)
    requires !IsHex(c) && c !in DIGEST_PREFIX
    ensures Free(DIGEST_PREFIX + h, c)
  {
  }

  lemma DimsAreNumerals(shape: seq<nat>, c: char)
    requires c != ',' && !IsDigit(c)
    ensures Free(Dims(shape), c)
  {
    DimTextsAreNumerals(shape);
    JoinFree(DimTexts(shape), ',', c);
  }

  lemma {:induction false} ManifestEnding(specs: seq<ParamSpec>) returns (before: string, shape: seq<nat>)
    requires specs != []
    ensures ManifestText(specs) == before + [SEP] + Dims(shape) + [LINE]
  {
    var s := specs[0];
    JoinThree(s.name, s.dtype, Dims(s.shape));
    if |specs| == 1 {
      before, shape := s.name + [SEP] + s.dtype, s.shape;
      assert specs[1..] == [];
    } else {
      before, shape := ManifestEnding(specs[1..]);
      before := s.Canonical() + [LINE] + before;
    }
  }

  lemma EndingsDiffer(before: string, dims: string, line: string, digest: string)
    requires Free(dims, 's') && Free(digest, SEP) && digest != "" && digest[0] == 's'
    ensures before + [SEP] + dims + [LINE] != line + digest + [LINE]
  {
    var left, right := before + [SEP] + dims + [LINE], line + digest + [LINE];
    if |before| >= |line| {
      assert left[|before|] == SEP;
      assert |before| < |line| + |digest| ==> right[|before|] == digest[|before| - |line|];
    } else {
      assert right[|line|] == 's';
      assert |line| <= |before| + |dims| ==> left[|line|] == dims[|line| - |before| - 1];
    }
  }

  /**
    * No manifest-only pre-image is a provenance-qualified one, whatever the names: what follows
    * the last field separator is dimensions in the one and a digest in the other.
    */
  lemma TiersAreDisjoint(specs: seq<ParamSpec>, p: WeightProvenance, h: Hex64)
    ensures ManifestText(specs) != ProvenanceText(p, DIGEST_PREFIX + h)
  {
    if specs != [] {
      var before, shape := ManifestEnding(specs);
      HexIsFree(h, SEP);
      DimsAreNumerals(shape, 's');
      EndingsDiffer(before, Dims(shape), p.Canonical() + [LINE], DIGEST_PREFIX + h);
    }
  }

  /** The digest has a fixed length, so the text determines what stands before it. */
  lemma QualifiedTextParts(p: WeightProvenance, h: Hex64, q: WeightProvenance, k: Hex64)
    ensures ProvenanceText(p, DIGEST_PREFIX + h) == ProvenanceText(q, DIGEST_PREFIX + k)
       <==> p.Canonical() == q.Canonical() && h == k
  {
    var text, n := ProvenanceText(p, DIGEST_PREFIX + h), |p.Canonical()|;
    if text == ProvenanceText(q, DIGEST_PREFIX + k) {
      assert |q.Canonical()| == n;
      assert text[..n] == p.Canonical() == q.Canonical();
      assert text[n + 1 + |DIGEST_PREFIX|..|text| - 1] == h == k;
    }
  }

  lemma ProvenanceTextInjective(p: WeightProvenance, h: Hex64, q: WeightProvenance, k: Hex64)
    requires p.Valid() && p.Clean() && q.Valid() && q.Clean()
    requires ProvenanceText(p, DIGEST_PREFIX + h) == ProvenanceText(q, DIGEST_PREFIX + k)
    ensures p == q && h == k
  {
    QualifiedTextParts(p, h, q, k);
    ProvenanceRoundTrip(p);
    ProvenanceRoundTrip(q);
  }

  lemma PrefixCancels(h: Hex64, k: Hex64)
    ensures DIGEST_PREFIX + h == DIGEST_PREFIX + k <==> h == k
  {
    assert (DIGEST_PREFIX + h)[|DIGEST_PREFIX|..] == h && (DIGEST_PREFIX + k)[|DIGEST_PREFIX|..] == k;
  }

  lemma ManifestDigestsAgree(a: seq<ParamSpec>, b: seq<ParamSpec>, hash: Hash)
    requires AllClean(a) && AllClean(b)
    requires CollisionFree(hash, {ManifestText(a), ManifestText(b)})
    ensures ManifestDigest(a, hash) == ManifestDigest(b, hash) <==> a == b
  {
    PrefixCancels(hash(ManifestText(a)), hash(ManifestText(b)));
    ManifestRoundTrip(a);
    ManifestRoundTrip(b);
  }

  lemma SortKeepsClean(specs: seq<ParamSpec>)
    requires AllClean(specs)
    ensures AllClean(SortByName(specs))
  {
    SortIsSortedPermutation(specs);
    forall i | 0 <= i < |SortByName(specs)| ensures SortByName(specs)[i].Clean() {
      assert SortByName(specs)[i] in multiset(specs);
    }
  }

  ghost predicate Encodable(specs: seq<ParamSpec>, source: Option<WeightProvenance>) {
    AllClean(specs) && DistinctNames(specs) && (source.Some? ==> source.value.Valid() && source.value.Clean())
  }

  lemma DigestTextInjective(
    m: seq<ParamSpec>, s: Option<WeightProvenance>, n: seq<ParamSpec>, t: Option<WeightProvenance>, hash: Hash)
    requires AllClean(m) && AllClean(n) && CollisionFree(hash, {ManifestText(m), ManifestText(n)})
    requires (s.Some? ==> s.value.Valid() && s.value.Clean()) && (t.Some? ==> t.value.Valid() && t.value.Clean())
    ensures DigestText(m, s, hash) == DigestText(n, t, hash) <==> m == n && s == t
  {
    var hm, hn := hash(ManifestText(m)), hash(ManifestText(n));
    ManifestRoundTrip(m);
    ManifestRoundTrip(n);
    match (s, t) {
      case (None, None) =>
      case (Some(p), None) => TiersAreDisjoint(n, p, hm);
      case (None, Some(q)) => TiersAreDisjoint(m, q, hn);
      case (Some(p), Some(q)) =>
        if DigestText(m, s, hash) == DigestText(n, t, hash) {
          ProvenanceTextInjective(p, hm, q, hn);
        }
    }
  }

  /** What makes up an identity. */
  lemma IdentityParts(specs: seq<ParamSpec>, source: Option<WeightProvenance>, hash: Hash)
    requires Encodable(specs, source)
    ensures var m := SortByName(specs);
      && AllClean(m) && Sorted(m) && DistinctNames(m) && multiset(m) == multiset(specs)
      && Preimages(specs, source, hash) == {ManifestText(m), DigestText(m, source, hash)}
      && IdentityOf(specs, source, hash) == Some(WeightIdentity(
           DIGEST_PREFIX + hash(DigestText(m, source, hash)), Some(|m|), Some(ManifestDigest(m, hash)), source))
  {
    SortIsSortedPermutation(specs);
    DistinctByMultiset(specs, SortByName(specs));
    SortKeepsClean(specs);
  }

  /** Digests are equal exactly when the declared weight sources are. */
  lemma DigestsIdentifyDeclarations(
    a: seq<ParamSpec>, s: Option<WeightProvenance>, b: seq<ParamSpec>, t: Option<WeightProvenance>, hash: Hash)
    requires Encodable(a, s) && Encodable(b, t)
    requires CollisionFree(hash, Preimages(a, s, hash) + Preimages(b, t, hash))
    ensures var x, y := IdentityOf(a, s, hash), IdentityOf(b, t, hash);
      && x.Some? && y.Some?
      && (x.value.digest == y.value.digest <==> multiset(a) == multiset(b) && s == t)
      && (x.value.manifestDigest == y.value.manifestDigest <==> multiset(a) == multiset(b))
      && (x == y <==> multiset(a) == multiset(b) && s == t)
  {
    var m, n := SortByName(a), SortByName(b);
    IdentityParts(a, s, hash);
    IdentityParts(b, t, hash);
    ManifestDigestsAgree(m, n, hash);
    DigestTextInjective(m, s, n, t, hash);
    PrefixCancels(hash(DigestText(m, s, hash)), hash(DigestText(n, t, hash)));
    if multiset(a) == multiset(b) {
      SortedDistinctUnique(m, n);
    }
  }
}

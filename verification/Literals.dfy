/** Labels, encodings and digests written out, as an independent implementation would have to produce them. */
module Literals {
  import opened Prelude
  import opened Labels
  import opened Text
  import opened Identity
  import opened Encodings

  lemma DecimalsAreWritten(n: nat)
    ensures n < 10 ==> Decimal(n) == ["0123456789"[n]]
    ensures n >= 10 ==> Decimal(n) == Decimal(n / 10) + Decimal(n % 10)
  {
    assert "0123456789"[0] == '0';
  }

  /** The label and the cache salt of a generation are one text. */
  lemma LabelsAreWritten(v: WeightVersion)
    ensures v.Label() == "rc-" + Decimal(v.value) && v.CacheSalt() == v.Label()
    ensures INITIAL_VERSION.Label() == "rc-0" && WeightVersion(42).Label() == "rc-42"
  {
    DecimalsAreWritten(0);
    DecimalsAreWritten(42);
    assert INITIAL_VERSION.Label() == "rc-" + "0" && WeightVersion(42).Label() == "rc-" + ("4" + "2") == "rc-42";
  }

  /** Read as labels: the prefix and at least one digit after it, and nothing else. */
  lemma LabelsAreReadExactly(written: string, v: WeightVersion)
    ensures ParseLabel(written) == Some(v) <==>
      exists d: string :: d != "" && AllDigits(d) && ParseDecimal(d) == v.value && written == "rc-" + d
    ensures IsManaged(written) <==> exists rest: string :: written == "rc-" + rest
  {
    if IsManaged(written) {
      assert written == "rc-" + Labels.Suffix(written);
    }
    if rest: string :| written == "rc-" + rest {
      assert Labels.Suffix(written) == rest;
    }
  }

  lemma {:induction false} LeadingZerosCountNothing(d: string)
    requires AllDigits(d)
    ensures AllDigits("0" + d) && ParseDecimal("0" + d) == ParseDecimal(d)
  {
    if d == "" {
      assert "0" + d == "0" && "0"[..0] == "";
    } else {
      LeadingZerosCountNothing(d[..|d| - 1]);
      assert ("0" + d)[..|d|] == "0" + d[..|d| - 1];
    }
  }

  const UNIT := "\U{1F}"

  lemma ShapesAreWritten(n: nat, m: nat)
    ensures Dims([]) == "" && Dims([n]) == Decimal(n) && Dims([n, m]) == Decimal(n) + "," + Decimal(m)
  {
    assert DimTexts([n]) == [Decimal(n)] && DimTexts([n, m]) == [Decimal(n), Decimal(m)];
    assert [Decimal(n), Decimal(m)][1..] == [Decimal(m)];
    assert Join([Decimal(m)], ',') == Decimal(m);
  }

  /** One line a parameter: name, dtype and shape, unit separators between. */
  lemma ManifestsAreWritten(spec: ParamSpec, rest: seq<ParamSpec>)
    ensures ManifestText([]) == ""
    ensures ManifestText([spec] + rest)
      == spec.name + UNIT + spec.dtype + UNIT + Dims(spec.shape) + "\n" + ManifestText(rest)
  {
    CanonicalFields(spec);
    assert ([spec] + rest)[1..] == rest;
  }

  /** The keyed parts, absent ones omitted, unit separators between. */
  lemma ProvenancesAreWritten(c: string, r: string, n: nat)
    ensures WeightProvenance(Some(c), None, None).Canonical() == "checkpoint=" + c
    ensures WeightProvenance(None, Some(r), None).Canonical() == "run_id=" + r
    ensures WeightProvenance(None, None, Some(n)).Canonical() == "step=" + Decimal(n)
    ensures WeightProvenance(Some(c), Some(r), None).Canonical() == "checkpoint=" + c + UNIT + "run_id=" + r
    ensures WeightProvenance(Some(c), None, Some(n)).Canonical() == "checkpoint=" + c + UNIT + "step=" + Decimal(n)
    ensures WeightProvenance(None, Some(r), Some(n)).Canonical() == "run_id=" + r + UNIT + "step=" + Decimal(n)
  {
    assert WeightProvenance(Some(c), Some(r), None).Parts() == ["checkpoint=" + c, "run_id=" + r];
    assert WeightProvenance(Some(c), None, Some(n)).Parts() == ["checkpoint=" + c, "step=" + Decimal(n)];
    assert WeightProvenance(None, Some(r), Some(n)).Parts() == ["run_id=" + r, "step=" + Decimal(n)];
    TwoParts("checkpoint=" + c, "run_id=" + r);
    TwoParts("checkpoint=" + c, "step=" + Decimal(n));
    TwoParts("run_id=" + r, "step=" + Decimal(n));
  }

  lemma TwoParts(x: string, y: string)
    ensures Join([x], SEP) == x && Join([x, y], SEP) == x + UNIT + y
  {
    assert [x, y][1..] == [y];
    assert Join([y], SEP) == y;
  }

  lemma FullProvenancesAreWritten(c: string, r: string, n: nat)
    ensures WeightProvenance(Some(c), Some(r), Some(n)).Canonical()
      == "checkpoint=" + c + UNIT + "run_id=" + r + UNIT + "step=" + Decimal(n)
  {
    var p := WeightProvenance(Some(c), Some(r), Some(n));
    assert p.Parts() == ["checkpoint=" + c, "run_id=" + r, "step=" + Decimal(n)];
    JoinThree("checkpoint=" + c, "run_id=" + r, "step=" + Decimal(n));
  }

  lemma HexDigitsAreWritten(c: char)
    ensures IsHex(c) <==> c in "0123456789abcdef"
  {
    var digits := "0123456789abcdef";
    assert forall i :: 0 <= i < 10 ==> digits[i] == '0' + i as char;
    assert forall i :: 10 <= i < 16 ==> digits[i] == 'a' + (i - 10) as char;
    if IsHex(c) {
      var i := if c <= '9' then c as int - '0' as int else c as int - 'a' as int + 10;
      assert digits[i] == c;
    }
  }

  /** What is hashed, and what becomes of the hash. */
  lemma IdentitiesAreWritten(specs: seq<ParamSpec>, p: WeightProvenance, hash: Hash)
    requires DistinctNames(specs)
    ensures var m := "sha256:" + hash(ManifestText(SortByName(specs)));
      && IdentityOf(specs, None, hash) == Some(WeightIdentity(m, Some(|specs|), Some(m), None))
      && IdentityOf(specs, Some(p), hash)
         == Some(WeightIdentity("sha256:" + hash(p.Canonical() + "\n" + m + "\n"), Some(|specs|), Some(m), Some(p)))
  {
    SortIsSortedPermutation(specs);
    DistinctByMultiset(specs, SortByName(specs));
  }

  /** Names are in order of their characters' numbers, a prefix before what it starts. */
  lemma {:induction false} NamesAreOrdered(a: string, b: string)
    ensures StrLe(a, b) <==>
      (|a| <= |b| && b[..|a|] == a)
      || exists i :: 0 <= i < |a| && i < |b| && a[..i] == b[..i] && a[i] < b[i]
  {
    if a != "" && b != "" && a[0] == b[0] {
      NamesAreOrdered(a[1..], b[1..]);
      assert a == [a[0]] + a[1..] && b == [b[0]] + b[1..];
      var prefix := |a| <= |b| && b[..|a|] == a;
      assert prefix <==> |a[1..]| <= |b[1..]| && b[1..][..|a[1..]|] == a[1..];
      forall i | 0 <= i < |a| && i < |b| && a[..i] == b[..i] && a[i] < b[i]
        ensures i >= 1 && a[1..][..i - 1] == b[1..][..i - 1] && a[1..][i - 1] < b[1..][i - 1]
      {
        assert a[1..][..i - 1] == a[..i][1..] && b[1..][..i - 1] == b[..i][1..];
      }
      forall i | 0 <= i < |a[1..]| && i < |b[1..]| && a[1..][..i] == b[1..][..i] && a[1..][i] < b[1..][i]
        ensures a[..i + 1] == b[..i + 1] && a[i + 1] < b[i + 1]
      {
        assert a[..i + 1] == [a[0]] + a[1..][..i] && b[..i + 1] == [b[0]] + b[1..][..i];
      }
    }
  }
}

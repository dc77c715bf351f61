/** Generation numbers and the `rc-<n>` labels written into an engine. */
module Labels {
  import opened Prelude

  const ENGINE_LABEL_PREFIX := "rc-"

  datatype WeightVersion = WeightVersion(value: nat) {
    function Label(): string {
      ENGINE_LABEL_PREFIX + Decimal(value)
    }

    /** Isolates the prefix cache only; see Lifecycle.SaltIdentifiesWeights. */
    function CacheSalt(): string {
      Label()
    }

    function Next(): WeightVersion {
      WeightVersion(value + 1)
    }
  }

  const INITIAL_VERSION := WeightVersion(0)

  // ---------------------------------------------------------------- decimals

  predicate IsDigit(c: char) {
    '0' <= c <= '9'
  }

  predicate AllDigits(s: string) {
    forall i :: 0 <= i < |s| ==> IsDigit(s[i])
  }

  function Digit(d: nat): char
    requires d < 10
  {
    ('0' as int + d) as char
  }

  function DigitValue(c: char): nat
    requires IsDigit(c)
  {
    c as int - '0' as int
  }

  function Decimal(n: nat): string {
    if n < 10 then [Digit(n)] else Decimal(n / 10) + [Digit(n % 10)]
  }

  function ParseDecimal(s: string): nat
    requires AllDigits(s)
  {
    if s == "" then 0 else 10 * ParseDecimal(s[..|s| - 1]) + DigitValue(s[|s| - 1])
  }

  /** No redundant leading zero. */
  predicate Minimal(s: string) {
    |s| == 1 || (|s| > 1 && s[0] != '0')
  }

  lemma {:induction false} DecimalRoundTrip(n: nat)
    ensures AllDigits(Decimal(n)) && Minimal(Decimal(n)) && ParseDecimal(Decimal(n)) == n
    ensures n > 0 ==> Decimal(n)[0] != '0'
  {
    if n >= 10 {
      DecimalRoundTrip(n / 10);
      var s := Decimal(n);
      assert s[..|s| - 1] == Decimal(n / 10);
    } else {
      assert Decimal(n)[..0] == "";
    }
  }

  lemma {:induction false} MinimalParsesPositive(s: string)
    requires AllDigits(s) && |s| >= 1 && s[0] != '0'
    ensures ParseDecimal(s) >= 1
    ensures |s| > 1 ==> ParseDecimal(s) >= 10
  {
    if |s| > 1 {
      MinimalParsesPositive(s[..|s| - 1]);
    } else {
      assert s[..0] == "";
    }
  }

  lemma {:induction false} ParsePrintsMinimal(s: string)
    requires AllDigits(s) && Minimal(s)
    ensures Decimal(ParseDecimal(s)) == s
  {
    var front := s[..|s| - 1];
    if |s| == 1 {
      assert front == "";
    } else {
      MinimalParsesPositive(s);
      ParsePrintsMinimal(front);
      assert s == front + [s[|s| - 1]];
    }
  }

  // ------------------------------------------------------------------ labels

  predicate StartsWith(s: string, prefix: string) {
    |s| >= |prefix| && s[..|prefix|] == prefix
  }

  /** The engine-side ownership test: any label with our prefix. */
  predicate IsManaged(written: string) {
    StartsWith(written, ENGINE_LABEL_PREFIX)
  }

  function Suffix(written: string): string
    requires IsManaged(written)
  {
    written[|ENGINE_LABEL_PREFIX|..]
  }

  /** None stands for VersionError. */
  function ParseLabel(written: string): Option<WeightVersion> {
    if IsManaged(written) && Suffix(written) != "" && AllDigits(Suffix(written))
    then Some(WeightVersion(ParseDecimal(Suffix(written))))
    else None
  }

  lemma LabelRoundTrip(v: WeightVersion)
    ensures ParseLabel(v.Label()) == Some(v)
    ensures IsManaged(v.Label())
  {
    DecimalRoundTrip(v.value);
    assert Suffix(v.Label()) == Decimal(v.value);
  }

  lemma LabelInjective(v: WeightVersion, w: WeightVersion)
    ensures v.Label() == w.Label() <==> v == w
  {
    LabelRoundTrip(v);
    LabelRoundTrip(w);
  }

  lemma ParseLabelNotInjective()
    ensures "rc-007" != "rc-7" && ParseLabel("rc-007") == ParseLabel("rc-7") == Some(WeightVersion(7))
  {
    assert Suffix("rc-007") == "007" && Suffix("rc-7") == "7";
    SevenIsSeven();
  }

  lemma SevenIsSeven()
    ensures ParseDecimal("007") == ParseDecimal("7") == 7
  {
    assert "007"[..2] == "00" && "00"[..1] == "0" && "0"[..0] == "" && "7"[..0] == "";
    assert ParseDecimal("0") == 0 && ParseDecimal("00") == 0;
  }

  // ------------------------------------------------------------- digits of other scripts

  /** What the interpreter takes for a decimal digit, and its value: at least the ten plain ones. */
  ghost predicate ReadsPlainDigits(digits: char -> Option<nat>) {
    forall c :: IsDigit(c) ==> digits(c) == Some(DigitValue(c))
  }

  predicate AllRead(digits: char -> Option<nat>, s: string) {
    forall i :: 0 <= i < |s| ==> digits(s[i]).Some?
  }

  function ParseNumber(digits: char -> Option<nat>, s: string): nat
    requires AllRead(digits, s)
  {
    if s == "" then 0 else 10 * ParseNumber(digits, s[..|s| - 1]) + digits(s[|s| - 1]).value
  }

  /** The parser of an interpreter that reads more digits than the plain ones. */
  function ParseLabelWith(digits: char -> Option<nat>, written: string): Option<WeightVersion> {
    if IsManaged(written) && Suffix(written) != "" && AllRead(digits, Suffix(written))
    then Some(WeightVersion(ParseNumber(digits, Suffix(written))))
    else None
  }

  lemma {:induction false} PlainDigitsParseAlike(digits: char -> Option<nat>, s: string)
    requires ReadsPlainDigits(digits) && AllDigits(s)
    ensures AllRead(digits, s) && ParseNumber(digits, s) == ParseDecimal(s)
  {
    if s != "" {
      PlainDigitsParseAlike(digits, s[..|s| - 1]);
      assert IsDigit(s[|s| - 1]);
    }
  }

  /** On labels of plain digits every interpreter agrees. */
  lemma PlainLabelsParseAlike(digits: char -> Option<nat>, written: string)
    requires ReadsPlainDigits(digits) && IsManaged(written) && AllDigits(Suffix(written))
    ensures ParseLabelWith(digits, written) == ParseLabel(written)
  {
    PlainDigitsParseAlike(digits, Suffix(written));
  }

  /** Whatever digits are read, printing undoes parsing exactly on plain ones without a redundant zero. */
  lemma PrintUndoesParseExactly(digits: char -> Option<nat>, written: string)
    requires ReadsPlainDigits(digits) && ParseLabelWith(digits, written).Some?
    ensures ParseLabelWith(digits, written).value.Label() == written
       <==> AllDigits(Suffix(written)) && Minimal(Suffix(written))
  {
    var s, v := Suffix(written), ParseLabelWith(digits, written).value;
    assert written == ENGINE_LABEL_PREFIX + s;
    if AllDigits(s) && Minimal(s) {
      PlainDigitsParseAlike(digits, s);
      ParsePrintsMinimal(s);
    } else {
      DecimalRoundTrip(v.value);
      assert Suffix(v.Label()) == Decimal(v.value);
    }
  }

  lemma LabelRoundTripWith(digits: char -> Option<nat>, v: WeightVersion)
    requires ReadsPlainDigits(digits)
    ensures ParseLabelWith(digits, v.Label()) == Some(v)
  {
    DecimalRoundTrip(v.value);
    assert Suffix(v.Label()) == Decimal(v.value);
    PlainLabelsParseAlike(digits, v.Label());
    LabelRoundTrip(v);
  }
}

/**
 Names of acquisition directories: `acquisition_<N>` with `N` written in
 decimal. A directory name is counted when it matches `^acquisition_(\d+)$`
 (digits restricted to ASCII), and its index is the decimal value of all the
 digits the name contains, which for a matching name is its suffix.
 */
module AcquisitionNames {

  const Prefix: string := "acquisition_"

  predicate IsDigit(c: char) {
    '0' <= c <= '9'
  }

  predicate AllDigits(s: string) {
    forall i | 0 <= i < |s| :: IsDigit(s[i])
  }

  /** The pattern `^acquisition_(\d+)$`: the prefix followed by one or more digits and nothing else. */
  predicate Matches(name: string) {
    && |name| > |Prefix|
    && name[..|Prefix|] == Prefix
    && AllDigits(name[|Prefix|..])
  }

  /** The digits of `s` in order, everything else dropped. */
  function KeepDigits(s: string): (r: string)
    ensures AllDigits(r)
    ensures |r| <= |s|
  {
    if s == [] then []
    else (if IsDigit(s[0]) then [s[0]] else []) + KeepDigits(s[1..])
  }

  function DigitValue(c: char): (d: nat)
    requires IsDigit(c)
    ensures d < 10
  {
    c as int - '0' as int
  }

  function DigitChar(d: nat): (c: char)
    requires d < 10
    ensures IsDigit(c) && DigitValue(c) == d
  {
    ('0' as int + d) as char
  }

  /** Base-ten value of a digit string; leading zeros contribute nothing and the empty string is 0. */
  function ParseDecimal(s: string): nat
    requires AllDigits(s)
  {
    if s == [] then 0 else 10 * ParseDecimal(s[..|s| - 1]) + DigitValue(s[|s| - 1])
  }

  /** Decimal rendering, as `str(n)` writes it: at least one digit, no leading zero. */
  function DecimalString(n: nat): (s: string)
    ensures |s| > 0 && AllDigits(s)
    ensures s[0] == '0' ==> n == 0
  {
    if n < 10 then [DigitChar(n)] else DecimalString(n / 10) + [DigitChar(n % 10)]
  }

  /** The index a matching name contributes to the scan: the value of its digits. */
  function Index(name: string): nat
    requires Matches(name)
  {
    ParseDecimal(KeepDigits(name))
  }

  /** The directory name for index `n`. */
  function Name(n: nat): string {
    Prefix + DecimalString(n)
  }

  const FirstName: string := Name(1)

  lemma {:induction false} DecimalRoundTrip(n: nat)
    ensures ParseDecimal(DecimalString(n)) == n
    decreases n
  {
    var s := DecimalString(n);
    if n >= 10 {
      DecimalRoundTrip(n / 10);
      assert s[..|s| - 1] == DecimalString(n / 10);
    }
  }

  lemma {:induction false} KeepDigitsOfDigits(s: string)
    requires AllDigits(s)
    ensures KeepDigits(s) == s
  {
    if s != [] {
      KeepDigitsOfDigits(s[1..]);
    }
  }

  lemma {:induction false} KeepDigitsConcat(a: string, b: string)
    ensures KeepDigits(a + b) == KeepDigits(a) + KeepDigits(b)
  {
    if a != [] {
      assert (a + b)[1..] == a[1..] + b;
      KeepDigitsConcat(a[1..], b);
    } else {
      assert a + b == b;
    }
  }

  lemma {:induction false} KeepDigitsOfNonDigits(s: string)
    requires forall i | 0 <= i < |s| :: !IsDigit(s[i])
    ensures KeepDigits(s) == []
  {
    if s != [] {
      KeepDigitsOfNonDigits(s[1..]);
    }
  }

  /** The digit filter of a matching name is exactly its suffix, since the prefix holds no digit. */
  lemma IndexIsSuffixValue(name: string)
    requires Matches(name)
    ensures Index(name) == ParseDecimal(name[|Prefix|..])
  {
    var suffix := name[|Prefix|..];
    assert name == Prefix + suffix;
    KeepDigitsConcat(Prefix, suffix);
    KeepDigitsOfDigits(suffix);
    PrefixHasNoDigits();
    assert KeepDigits(name) == suffix;
  }

  lemma PrefixHasNoDigits()
    ensures KeepDigits(Prefix) == []
  {
    assert forall i | 0 <= i < |Prefix| :: !IsDigit(Prefix[i]);
    KeepDigitsOfNonDigits(Prefix);
  }

  /** Every generated name matches the pattern and reads back as its index. */
  lemma NameRoundTrip(n: nat)
    ensures Matches(Name(n))
    ensures Index(Name(n)) == n
  {
    assert Name(n)[|Prefix|..] == DecimalString(n);
    assert Name(n)[..|Prefix|] == Prefix;
    IndexIsSuffixValue(Name(n));
    DecimalRoundTrip(n);
  }

  /** A leading zero does not change the value: `acquisition_007` has index 7. */
  lemma {:induction false} LeadingZeroIgnored(s: string)
    requires AllDigits(s)
    ensures AllDigits("0" + s)
    ensures ParseDecimal("0" + s) == ParseDecimal(s)
    decreases |s|
  {
    if s != [] {
      var t := s[..|s| - 1];
      assert ("0" + s)[..|"0" + s| - 1] == "0" + t;
      LeadingZeroIgnored(t);
    }
  }

  /** The indices of the matching names. */
  function Indices(names: set<string>): set<nat> {
    set n | n in names && Matches(n) :: Index(n)
  }

  /** `m` is `max(index of matching names, default=0)`. */
  ghost predicate IsMaxIndex(names: set<string>, m: nat) {
    && (forall n | n in names && Matches(n) :: Index(n) <= m)
    && (m == 0 || exists n | n in names && Matches(n) :: Index(n) == m)
  }

  /** The largest element of a non-empty set, found by removing one element at a time. */
  ghost function SetMax(s: set<nat>): (m: nat)
    requires s != {}
    ensures m in s && forall i | i in s :: i <= m
    decreases s
  {
    var x :| x in s;
    assert forall i | i in s :: i == x || i in s - {x};
    if s == {x} then x
    else
      var m := SetMax(s - {x});
      if x <= m then m else x
  }

  lemma MaxExists(s: set<nat>)
    requires s != {}
    ensures exists m | m in s :: forall i | i in s :: i <= m
  {
    var m := SetMax(s);
  }

  lemma IndicesSpec(names: set<string>)
    ensures forall n | n in names && Matches(n) :: Index(n) in Indices(names)
    ensures forall i | i in Indices(names) :: exists n | n in names && Matches(n) :: Index(n) == i
  {
  }

  /** The largest index among the matching names, 0 when there is none. */
  function MaxIndex(names: set<string>): (m: nat)
    ensures IsMaxIndex(names, m)
  {
    var idx := Indices(names);
    IndicesSpec(names);
    if idx == {} then 0
    else
      MaxExists(idx);
      var m :| m in idx && forall i | i in idx :: i <= m;
      m
  }

  /** The first name matches and reads back as 1. */
  lemma FirstNameIndex()
    ensures Matches(FirstName) && Index(FirstName) == 1
  {
    NameRoundTrip(1);
  }

  /** `Name(MaxIndex + 1)` lies above every existing index, so no existing name is reused. */
  lemma NextNameIsFresh(names: set<string>)
    ensures forall n | n in names && Matches(n) :: Index(n) < MaxIndex(names) + 1
    ensures Name(MaxIndex(names) + 1) !in names
  {
    NameRoundTrip(MaxIndex(names) + 1);
  }

  /** Names that do not match the pattern never change the maximum. */
  lemma NonMatchingNameIgnored(names: set<string>, extra: string)
    requires !Matches(extra)
    ensures MaxIndex(names + {extra}) == MaxIndex(names)
  {
    assert Indices(names + {extra}) == Indices(names);
  }

  /** The maximum is determined by its defining property. */
  lemma MaxIndexUnique(names: set<string>, m: nat)
    requires IsMaxIndex(names, m)
    ensures MaxIndex(names) == m
  {
  }

  /** The spelled-out names carry no zero padding. */
  lemma NameSpelling()
    ensures FirstName == "acquisition_1"
    ensures Name(6) == "acquisition_6"
    ensures Name(10) == "acquisition_10"
  {
    assert DecimalString(1) == "1";
    assert DecimalString(6) == "6";
    assert DecimalString(10) == "10";
  }

  /** `acquisition_x` has a non-digit suffix and does not match. */
  lemma NonDigitSuffixDoesNotMatch()
    ensures !Matches("acquisition_x")
  {
    assert "acquisition_x"[|Prefix|..] == "x";
    assert !IsDigit("x"[0]);
  }

  /**
   Gaps are kept: next to the names for 1, 3 and 5 and two unrelated names the
   maximum is 5, so index 6 comes next.
   */
  lemma GapsAreNotFilled(a: nat, b: nat, c: nat)
    requires a == 1 && b == 3 && c == 5
    ensures MaxIndex({Name(a), Name(b), Name(c), "notes", "acquisition_x"}) == 5
  {
    var names := {Name(a), Name(b), Name(c), "notes", "acquisition_x"};
    NameRoundTrip(a);
    NameRoundTrip(b);
    NameRoundTrip(c);
    NonDigitSuffixDoesNotMatch();
    assert !Matches("notes");
    MaxIndexUnique(names, c);
  }
}

/** The phone-number helpers of utils/format.ts. */
module Format {

  /** The most digits a formatted number keeps (`slice(7, 11)`). */
  const MaxDigits: nat := 11

  /** JavaScript's `\d`: the ASCII digits only. */
  predicate IsDigit(c: char)
  {
    '0' <= c <= '9'
  }

  predicate AllDigits(s: string)
  {
    forall i :: 0 <= i < |s| ==> IsDigit(s[i])
  }

  function Min(a: int, b: int): int
  {
    if a <= b then a else b
  }

  /** `value.replace(/[^\d]/g, "")`: the digits of `value`, in order. */
  function StripPhoneNumber(value: string): (digits: string)
    ensures AllDigits(digits)
    ensures |digits| <= |value|
  {
    if value == [] then []
    else if IsDigit(value[0]) then [value[0]] + StripPhoneNumber(value[1..])
    else StripPhoneNumber(value[1..])
  }

  /**
    * Keeps the digits of `value` and groups them as `ddd`, `ddd-d…` (up to
    * seven digits) or `ddd-dddd-dddd`, dropping every digit after the 11th.
    */
  function FormatPhoneNumber(value: string): (formatted: string)
    ensures |formatted| <= MaxDigits + 2
    ensures forall i :: 0 <= i < |formatted| ==> IsDigit(formatted[i]) || formatted[i] == '-'
  {
    var d := StripPhoneNumber(value);
    if |d| <= 3 then d
    else if |d| <= 7 then d[..3] + "-" + d[3..]
    else d[..3] + "-" + d[3..7] + "-" + d[7..Min(MaxDigits, |d|)]
  }

  /** Stripping distributes over concatenation. */
  lemma {:induction false} StripConcat(a: string, b: string)
    ensures StripPhoneNumber(a + b) == StripPhoneNumber(a) + StripPhoneNumber(b)
  {
    if a == [] {
      assert a + b == b;
    } else {
      assert (a + b)[0] == a[0];
      assert (a + b)[1..] == a[1..] + b;
      StripConcat(a[1..], b);
    }
  }

  /** A string of digits only is left as it is. */
  lemma {:induction false} StripAllDigits(s: string)
    requires AllDigits(s)
    ensures StripPhoneNumber(s) == s
  {
    if s != [] {
      StripAllDigits(s[1..]);
      assert s == [s[0]] + s[1..];
    }
  }

  /** `stripPhoneNumber` is idempotent. */
  lemma StripIdempotent(value: string)
    ensures StripPhoneNumber(StripPhoneNumber(value)) == StripPhoneNumber(value)
  {
    StripAllDigits(StripPhoneNumber(value));
  }

  /** Stripping keeps every digit of the input, as many times as it occurs, and nothing else. */
  lemma {:induction false} StripKeepsDigits(value: string, c: char)
    ensures IsDigit(c) ==> multiset(StripPhoneNumber(value))[c] == multiset(value)[c]
    ensures !IsDigit(c) ==> multiset(StripPhoneNumber(value))[c] == 0
  {
    if value != [] {
      StripKeepsDigits(value[1..], c);
      assert value == [value[0]] + value[1..];
      assert multiset(value) == multiset{value[0]} + multiset(value[1..]);
      if IsDigit(value[0]) {
        var d := StripPhoneNumber(value[1..]);
        assert multiset([value[0]] + d) == multiset{value[0]} + multiset(d);
      }
    }
  }

  /** The exact layout of a formatted number: where its hyphens are and how long it is. */
  lemma FormatLayout(value: string)
    ensures var d := StripPhoneNumber(value); var r := FormatPhoneNumber(value);
      && (|d| <= 3 ==> r == d && forall i :: 0 <= i < |r| ==> r[i] != '-')
      && (4 <= |d| <= 7 ==> |r| == |d| + 1 && forall i :: 0 <= i < |r| ==> (r[i] == '-' <==> i == 3))
      && (8 <= |d| ==>
            |r| == Min(MaxDigits, |d|) + 2 && forall i :: 0 <= i < |r| ==> (r[i] == '-' <==> i == 3 || i == 8))
  {
    var d := StripPhoneNumber(value);
    var r := FormatPhoneNumber(value);
    if 8 <= |d| {
      assert r == d[..3] + "-" + d[3..7] + "-" + d[7..Min(MaxDigits, |d|)];
      forall i | 0 <= i < |r|
        ensures r[i] == '-' <==> i == 3 || i == 8
      {
        if i < 3 { assert r[i] == d[i]; }
        else if 3 < i < 8 { assert r[i] == d[i - 1]; }
        else if 8 < i { assert r[i] == d[i - 2]; }
      }
    } else if 4 <= |d| {
      forall i | 0 <= i < |r|
        ensures r[i] == '-' <==> i == 3
      {
        if i < 3 { assert r[i] == d[i]; }
        else if 3 < i { assert r[i] == d[i - 1]; }
      }
    }
  }

  /** A hyphen between two pieces disappears when stripping. */
  lemma StripAcrossHyphen(x: string, y: string)
    ensures StripPhoneNumber(x + "-" + y) == StripPhoneNumber(x) + StripPhoneNumber(y)
  {
    StripConcat(x + "-", y);
    StripConcat(x, "-");
    assert StripPhoneNumber("-") == [];
  }

  /** Stripping the two-group layout gives back its digits. */
  lemma StripTwoGroups(a: string, b: string)
    requires AllDigits(a) && AllDigits(b)
    ensures StripPhoneNumber(a + "-" + b) == a + b
  {
    StripAcrossHyphen(a, b);
    StripAllDigits(a);
    StripAllDigits(b);
  }

  /** Stripping the three-group layout gives back its digits. */
  lemma StripThreeGroups(a: string, b: string, c: string)
    requires AllDigits(a) && AllDigits(b) && AllDigits(c)
    ensures StripPhoneNumber(a + "-" + b + "-" + c) == a + b + c
  {
    StripAcrossHyphen(a + "-" + b, c);
    StripTwoGroups(a, b);
    StripAllDigits(c);
  }

  /** Round trip: stripping a formatted number gives back its first (at most eleven) digits. */
  lemma FormatStripRoundTrip(value: string)
    ensures var d := StripPhoneNumber(value);
      StripPhoneNumber(FormatPhoneNumber(value)) == d[..Min(MaxDigits, |d|)]
  {
    var d := StripPhoneNumber(value);
    var m := Min(MaxDigits, |d|);
    if |d| <= 3 {
      StripAllDigits(d);
      assert d[..m] == d;
    } else if |d| <= 7 {
      assert FormatPhoneNumber(value) == d[..3] + "-" + d[3..];
      StripTwoGroups(d[..3], d[3..]);
      assert d[..3] + d[3..] == d[..m];
    } else {
      assert FormatPhoneNumber(value) == d[..3] + "-" + d[3..7] + "-" + d[7..m];
      StripThreeGroups(d[..3], d[3..7], d[7..m]);
      assert d[..3] + d[3..7] + d[7..m] == d[..m];
    }
  }

  /** Formatting only looks at the digits of its input. */
  lemma FormatDependsOnDigitsOnly(value: string)
    ensures FormatPhoneNumber(StripPhoneNumber(value)) == FormatPhoneNumber(value)
  {
    StripIdempotent(value);
  }

  /** Formatting an already formatted number changes nothing. */
  lemma FormatIdempotent(value: string)
    ensures FormatPhoneNumber(FormatPhoneNumber(value)) == FormatPhoneNumber(value)
  {
    var d := StripPhoneNumber(value);
    var f := FormatPhoneNumber(value);
    FormatStripRoundTrip(value);
    var d' := StripPhoneNumber(f);
    assert d' == d[..Min(MaxDigits, |d|)];
    if 8 <= |d| {
      assert d'[..3] == d[..3];
      assert d'[3..7] == d[3..7];
      assert d'[7..Min(MaxDigits, |d'|)] == d[7..Min(MaxDigits, |d|)];
    } else {
      assert d' == d;
    }
  }
}

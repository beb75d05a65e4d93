/**
 * The suite id of a result file: `getSuiteId` matches `/\d+/g` against the
 * file name and applies `parseInt` to the first match, so the id is the value
 * of the first maximal run of decimal digits. A name without any digit makes
 * `match` return null, and indexing it throws: that is the `None` result here.
 */
module SuiteId {
  import opened Wrappers
  import opened Decimal

  /** `parseInt`'s left-to-right reading of the digits at the start of `s`, onto `acc`. */
  function ScanDigits(s: string, acc: nat): nat {
    if |s| > 0 && IsDigit(s[0]) then ScanDigits(s[1..], 10 * acc + DigitValue(s[0])) else acc
  }

  function GetSuiteId(fileName: string): Option<nat> {
    if |fileName| == 0 then None
    else if IsDigit(fileName[0]) then Some(ScanDigits(fileName, 0))
    else GetSuiteId(fileName[1..])
  }

  /** `s[i..j]` is the first maximal run of digits in `s`. */
  ghost predicate IsFirstDigitRun(s: string, i: int, j: int) {
    && 0 <= i < j <= |s|
    && (forall k :: 0 <= k < i ==> !IsDigit(s[k]))
    && (forall k :: i <= k < j ==> IsDigit(s[k]))
    && (j == |s| || !IsDigit(s[j]))
  }

  /** Scanning stops at the first non-digit. */
  lemma {:induction false} ScanDigitsStops(d: string, rest: string, acc: nat)
    requires AllDigits(d)
    requires rest == [] || !IsDigit(rest[0])
    ensures ScanDigits(d + rest, acc) == ScanDigits(d, acc)
  {
    if d == [] {
      assert d + rest == rest;
    } else {
      assert (d + rest)[1..] == d[1..] + rest;
      ScanDigitsStops(d[1..], rest, 10 * acc + DigitValue(d[0]));
    }
  }

  /** One more digit at the end multiplies the scanned value by ten and adds the digit. */
  lemma {:induction false} ScanDigitsSnoc(d: string, c: char, acc: nat)
    requires AllDigits(d) && IsDigit(c)
    ensures ScanDigits(d + [c], acc) == 10 * ScanDigits(d, acc) + DigitValue(c)
  {
    if d != [] {
      assert (d + [c])[1..] == d[1..] + [c];
      ScanDigitsSnoc(d[1..], c, 10 * acc + DigitValue(d[0]));
    }
  }

  /** Scanning a digit string reads its decimal value. */
  lemma {:induction false} ScanDigitsValue(d: string)
    requires AllDigits(d)
    ensures ScanDigits(d, 0) == Value(d)
  {
    if d != [] {
      var init := d[..|d| - 1];
      assert d == init + [d[|d| - 1]];
      ScanDigitsValue(init);
      ScanDigitsSnoc(init, d[|d| - 1], 0);
    }
  }

  /** Whatever the first maximal run of digits is, its value is the suite id. */
  lemma {:induction false} FirstDigitRunIsSuiteId(s: string, i: int, j: int)
    requires IsFirstDigitRun(s, i, j)
    ensures GetSuiteId(s) == Some(Value(s[i..j]))
  {
    if i == 0 {
      assert s == s[..j] + s[j..];
      ScanDigitsStops(s[..j], s[j..], 0);
      ScanDigitsValue(s[..j]);
    } else {
      var t := s[1..];
      assert !IsDigit(s[0]);
      assert forall k :: 0 <= k < |t| ==> t[k] == s[k + 1];
      assert IsFirstDigitRun(t, i - 1, j - 1);
      assert t[i - 1..j - 1] == s[i..j] by {
        assert forall k :: 0 <= k < j - i ==> t[i - 1..j - 1][k] == s[i..j][k];
      }
      FirstDigitRunIsSuiteId(t, i - 1, j - 1);
    }
  }

  /** The index of the first digit in `s`, or `|s|` when there is none. */
  function FirstDigit(s: string): (i: nat)
    ensures i <= |s|
    ensures forall k :: 0 <= k < i ==> !IsDigit(s[k])
    ensures i < |s| ==> IsDigit(s[i])
  {
    if s == [] || IsDigit(s[0]) then 0 else 1 + FirstDigit(s[1..])
  }

  /** The end of the run of digits that starts at `i`. */
  function RunEnd(s: string, i: nat): (j: nat)
    requires i <= |s|
    ensures i <= j <= |s|
    ensures forall k :: i <= k < j ==> IsDigit(s[k])
    ensures j == |s| || !IsDigit(s[j])
    decreases |s| - i
  {
    if i < |s| && IsDigit(s[i]) then RunEnd(s, i + 1) else i
  }

  /** A name without digits has no suite id. */
  lemma {:induction false} NoDigitNoSuiteId(s: string)
    requires forall k :: 0 <= k < |s| ==> !IsDigit(s[k])
    ensures GetSuiteId(s) == None
  {
    if s != [] {
      NoDigitNoSuiteId(s[1..]);
    }
  }

  /**
   * `getSuiteId` throws exactly on names without a digit; otherwise the id is
   * the value of the (unique) first maximal run of digits.
   */
  lemma GetSuiteIdSpec(s: string)
    ensures GetSuiteId(s).None? <==> forall k :: 0 <= k < |s| ==> !IsDigit(s[k])
    ensures GetSuiteId(s).Some? ==> exists i, j :: IsFirstDigitRun(s, i, j) && GetSuiteId(s).value == Value(s[i..j])
  {
    var i := FirstDigit(s);
    if i == |s| {
      NoDigitNoSuiteId(s);
    } else {
      var j := RunEnd(s, i);
      assert IsFirstDigitRun(s, i, j);
      FirstDigitRunIsSuiteId(s, i, j);
    }
  }

  /**
   * A name made of a digit-free prefix, a non-empty run of digits and a rest
   * that does not start with a digit has the value of that run as suite id.
   */
  lemma SuiteIdOfParts(prefix: string, digits: string, rest: string)
    requires forall k :: 0 <= k < |prefix| ==> !IsDigit(prefix[k])
    requires |digits| > 0 && AllDigits(digits)
    requires rest == [] || !IsDigit(rest[0])
    ensures GetSuiteId(prefix + digits + rest) == Some(Value(digits))
  {
    var s := prefix + digits + rest;
    var i, j := |prefix|, |prefix| + |digits|;
    assert s[i..j] == digits;
    assert IsFirstDigitRun(s, i, j) by {
      assert forall k :: 0 <= k < i ==> s[k] == prefix[k];
      assert forall k :: i <= k < j ==> s[k] == digits[k - i];
      assert j < |s| ==> s[j] == rest[0];
    }
    FirstDigitRunIsSuiteId(s, i, j);
  }

  /**
   * A name made of a digit-free prefix, any number of leading zeros, the
   * decimal text of `n` and a rest that does not start with a digit has suite
   * id `n`.
   */
  lemma SuiteIdOfName(prefix: string, zeros: string, n: nat, rest: string)
    requires forall k :: 0 <= k < |prefix| ==> !IsDigit(prefix[k])
    requires forall k :: 0 <= k < |zeros| ==> zeros[k] == '0'
    requires rest == [] || !IsDigit(rest[0])
    ensures GetSuiteId(prefix + zeros + FromNat(n) + rest) == Some(n)
  {
    var digits := zeros + FromNat(n);
    LeadingZeros(zeros, FromNat(n));
    ValueOfFromNat(n);
    assert prefix + zeros + FromNat(n) + rest == prefix + digits + rest;
    SuiteIdOfParts(prefix, digits, rest);
  }
}

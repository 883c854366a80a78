/** `getAmountNumber`: the read-side filter that the amount field goes through
    before it is shown. A string matching `/^\d*\.?\d*$/` is shown as it is,
    any other string is shown as empty. */
module AmountText {

  /** `\d` of a regular expression without the `u` flag: ASCII digits only. */
  predicate IsDigit(c: char)
  {
    '0' <= c <= '9'
  }

  /** `\d*` over the whole of `s`. */
  predicate AllDigits(s: string)
  {
    forall i :: 0 <= i < |s| ==> IsDigit(s[i])
  }

  /** What `/^\d*\.?\d*$/` accepts, read off the pattern: a run of digits, or
      two runs of digits around a single dot. */
  ghost predicate AmountPattern(s: string)
  {
    AllDigits(s) ||
    exists k :: 0 <= k < |s| && s[k] == '.' && AllDigits(s[..k]) && AllDigits(s[k + 1..])
  }

  /** The left-to-right scan a regular-expression engine does for the pattern:
      digits are skipped, a first dot hands the rest to `\d*`, anything else
      fails. */
  predicate Matches(s: string)
    decreases |s|
  {
    if s == [] then true
    else if IsDigit(s[0]) then Matches(s[1..])
    else if s[0] == '.' then AllDigits(s[1..])
    else false
  }

  /** The scan accepts exactly the strings the pattern describes. */
  lemma {:induction false} MatchesIffPattern(s: string)
    ensures Matches(s) <==> AmountPattern(s)
    decreases |s|
  {
    if s == [] {
    } else if IsDigit(s[0]) {
      MatchesIffPattern(s[1..]);
      var t := s[1..];
      if AmountPattern(t) {
        if AllDigits(t) {
          assert AllDigits(s) by {
            forall i | 0 <= i < |s| ensures IsDigit(s[i]) {
              if i > 0 { assert s[i] == t[i - 1]; }
            }
          }
        } else {
          var k :| 0 <= k < |t| && t[k] == '.' && AllDigits(t[..k]) && AllDigits(t[k + 1..]);
          assert s[k + 1] == '.';
          assert s[k + 2..] == t[k + 1..];
          var u, v := s[..k + 1], t[..k];
          assert AllDigits(u) by {
            forall i | 0 <= i < |u| ensures IsDigit(u[i]) {
              if i > 0 { assert u[i] == v[i - 1]; }
            }
          }
        }
      }
      if AmountPattern(s) {
        if AllDigits(s) {
          assert AllDigits(t) by {
            forall i | 0 <= i < |t| ensures IsDigit(t[i]) {
              assert t[i] == s[i + 1];
            }
          }
        } else {
          var k :| 0 <= k < |s| && s[k] == '.' && AllDigits(s[..k]) && AllDigits(s[k + 1..]);
          assert k > 0 by { assert !IsDigit('.'); }
          assert t[k - 1] == '.';
          assert t[k..] == s[k + 1..];
          var u, v := t[..k - 1], s[..k];
          assert AllDigits(u) by {
            forall i | 0 <= i < |u| ensures IsDigit(u[i]) {
              assert u[i] == v[i + 1];
            }
          }
        }
      }
    } else if s[0] == '.' {
      assert s[..0] == [] && s[1..] == s[0 + 1..];
      // a dot at the front leaves no room for leading digits
      forall k | 0 < k < |s| ensures !AllDigits(s[..k]) {
        assert s[..k][0] == '.';
      }
    } else {
      assert !IsDigit(s[0]);
      forall k | 0 <= k < |s| && s[k] == '.' ensures !AllDigits(s[..k]) {
        assert s[..k][0] == s[0];
      }
    }
  }

  /** `getAmountNumber(val)`: `val` when it matches the pattern, otherwise "". */
  function GetAmountNumber(val: string): (r: string)
    ensures AmountPattern(val) ==> r == val
    ensures !AmountPattern(val) ==> r == ""
  {
    MatchesIffPattern(val);
    if Matches(val) then val else ""
  }

  /** Whatever is shown matches the pattern, so filtering it again shows the
      same text. */
  lemma GetAmountNumberIdempotent(val: string)
    ensures AmountPattern(GetAmountNumber(val))
    ensures GetAmountNumber(GetAmountNumber(val)) == GetAmountNumber(val)
  {
    assert AllDigits("");
  }

  /** Sample inputs: a decimal is kept, a second dot or a letter empties the
      field, a lone dot and the default "0.00" are kept. */
  lemma GetAmountNumberExamples()
    ensures GetAmountNumber("12.5") == "12.5"
    ensures GetAmountNumber("12.5.6") == ""
    ensures GetAmountNumber("abc") == ""
    ensures GetAmountNumber(".") == "."
    ensures GetAmountNumber("") == ""
    ensures GetAmountNumber("0.00") == "0.00"
  {
    MatchesIffPattern("12.5");
    MatchesIffPattern("12.5.6");
    MatchesIffPattern("abc");
    MatchesIffPattern(".");
    MatchesIffPattern("0.00");
    assert Matches("12.5") by { assert "12.5"[1..] == "2.5"; assert "2.5"[1..] == ".5"; assert ".5"[1..] == "5"; }
    assert !Matches("12.5.6") by {
      assert "12.5.6"[1..] == "2.5.6"; assert "2.5.6"[1..] == ".5.6"; assert ".5.6"[1..] == "5.6";
      assert "5.6"[1] == '.';
    }
    assert Matches("0.00") by { assert "0.00"[1..] == ".00"; assert ".00"[1..] == "00"; }
  }
}

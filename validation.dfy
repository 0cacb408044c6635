/** Field rules shared by the sign-up and profile forms. String lengths are
    counted in characters. */
module Validation {
  import opened Text

  /** `/^(\+27|0)\d{9}$/`: a South African number, international or national form. */
  predicate IsSAPhone(s: string)
  {
    (|s| == 12 && s[..3] == "+27" && AllDigits(s[3..]))
    || (|s| == 10 && s[0] == '0' && AllDigits(s[1..]))
  }

  /** `z.string().min(2).max(100)`. */
  predicate IsNameLength(s: string)
  {
    2 <= |s| <= 100
  }

  /** The national form of an accepted number is ten digits; the international
      form is `+` followed by eleven digits beginning with the country code. */
  lemma SAPhoneForms(s: string)
    ensures IsSAPhone(s) <==>
      (AllDigits(s) && |s| == 10 && s[0] == '0')
      || (|s| == 12 && s[0] == '+' && AllDigits(s[1..]) && s[1..3] == "27")
  {
    if |s| == 12 && s[0] == '+' && AllDigits(s[1..]) && s[1..3] == "27" {
      assert s[..3] == [s[0]] + s[1..3];
      forall i | 0 <= i < |s[3..]| ensures IsDigit(s[3..][i]) {
        assert s[3..][i] == s[1..][i + 2];
      }
    }
    if |s| == 12 && s[..3] == "+27" && AllDigits(s[3..]) {
      assert s[0] == '+' && s[1..3] == s[..3][1..];
      forall i | 0 <= i < |s[1..]| ensures IsDigit(s[1..][i]) {
        if i >= 2 { assert s[1..][i] == s[3..][i - 2]; }
      }
    }
    if |s| == 10 && s[0] == '0' && AllDigits(s[1..]) {
      forall i | 0 <= i < |s| ensures IsDigit(s[i]) {
        if i > 0 { assert s[i] == s[1..][i - 1]; }
      }
    }
  }
}

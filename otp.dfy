/**
 * `generate_otp` in app.py: six characters drawn with replacement from
 * `string.digits`. The random draws are a parameter: `picks[i]` is the
 * position in the digit alphabet chosen for the i-th character.
 */
module Otp {

  const Digits: string := "0123456789"
  const OtpLength: nat := 6

  /** A one-time code: exactly six ASCII decimal digits. */
  predicate IsOtp(code: string)
  {
    |code| == OtpLength && forall i :: 0 <= i < |code| ==> '0' <= code[i] <= '9'
  }

  /** Draws that `random.choices(string.digits, k=6)` can return. */
  predicate ValidPicks(picks: seq<nat>)
  {
    |picks| == OtpLength && forall i :: 0 <= i < |picks| ==> picks[i] < |Digits|
  }

  function GenerateOtp(picks: seq<nat>): (code: string)
    requires ValidPicks(picks)
    ensures IsOtp(code)
    ensures forall i :: 0 <= i < OtpLength ==> code[i] as int == '0' as int + picks[i]
  {
    seq(OtpLength, i requires 0 <= i < OtpLength => Digits[picks[i]])
  }

  /** The draws that produce a given code: the value of each digit. */
  function DigitPicks(code: string): (picks: seq<nat>)
    requires IsOtp(code)
    ensures ValidPicks(picks)
  {
    seq(OtpLength, i requires 0 <= i < OtpLength => code[i] as int - '0' as int)
  }

  /** Every six-digit code can be issued, by exactly the draws `DigitPicks` names. */
  lemma EveryCodeIsIssuable(code: string)
    requires IsOtp(code)
    ensures GenerateOtp(DigitPicks(code)) == code
  {
  }

  /** Distinct draws issue distinct codes. */
  lemma GenerateOtpInjective(picks: seq<nat>, picks': seq<nat>)
    requires ValidPicks(picks) && ValidPicks(picks')
    requires GenerateOtp(picks) == GenerateOtp(picks')
    ensures picks == picks'
  {
  }
}

/**
 * The sign-in page's one-time-password screen: six single-character boxes, the
 * verify button and the page's step.
 */
module Auth {

  datatype Step = AuthStep | OtpStep | KycStep

  const OtpLength := 6

  /** `otp.join('')`. */
  function Join(otp: seq<string>): string {
    if otp == [] then "" else otp[0] + Join(otp[1..])
  }

  /** Every box holds at most one character, as the change handler guarantees. */
  predicate SingleChars(otp: seq<string>) {
    forall i :: 0 <= i < |otp| ==> |otp[i]| <= 1
  }

  /** `otp.some(digit => !digit)`: the verify button is disabled. */
  predicate VerifyDisabled(otp: seq<string>) {
    exists i :: 0 <= i < |otp| && otp[i] == ""
  }

  /** With single-character boxes the joined code is as long as the number of filled boxes. */
  lemma {:induction false} JoinLength(otp: seq<string>)
    requires SingleChars(otp)
    ensures |Join(otp)| <= |otp|
    ensures |Join(otp)| == |otp| <==> !VerifyDisabled(otp)
  {
    if otp != [] {
      JoinLength(otp[1..]);
      if !VerifyDisabled(otp[1..]) && otp[0] != "" {
        forall i | 0 <= i < |otp| ensures otp[i] != "" {
          if i > 0 { assert otp[i] == otp[1..][i - 1]; }
        }
      }
      if VerifyDisabled(otp[1..]) {
        var i :| 0 <= i < |otp[1..]| && otp[1..][i] == "";
        assert otp[i + 1] == "";
      }
    }
  }

  /**
   * The verify button is enabled exactly when submitting moves on: with six
   * single-character boxes, the joined code has length 6 iff no box is empty.
   */
  lemma SubmitSucceedsIffVerifyEnabled(otp: seq<string>)
    requires |otp| == OtpLength && SingleChars(otp)
    ensures |Join(otp)| == OtpLength <==> !VerifyDisabled(otp)
  {
    JoinLength(otp);
  }

  /** The page's state. */
  class AuthPage {
    var step: Step
    var otp: seq<string>

    /** The code always has six boxes of at most one character. */
    ghost predicate Valid()
      reads this
    {
      |otp| == OtpLength && SingleChars(otp)
    }

    constructor ()
      ensures Valid() && step == AuthStep && otp == ["", "", "", "", "", ""]
    {
      step := AuthStep;
      otp := ["", "", "", "", "", ""];
    }

    /** `handleOtpChange` for box `index` (focus handling is not modelled). */
    method OtpChange(index: nat, value: string)
      requires Valid() && index < OtpLength
      modifies this`otp
      ensures Valid()
      ensures otp == if |value| <= 1 then old(otp)[index := value] else old(otp)
    {
      if |value| <= 1 {
        otp := otp[index := value];
      }
    }

    /** `handleOtpSubmit`. */
    method OtpSubmit()
      requires Valid()
      modifies this`step
      ensures step == if |Join(otp)| == OtpLength then KycStep else old(step)
      ensures step == KycStep && old(step) != KycStep ==> !VerifyDisabled(otp)
    {
      SubmitSucceedsIffVerifyEnabled(otp);
      if |Join(otp)| == OtpLength {
        step := KycStep;
      }
    }

    /** "Continue with OTP" on the sign-up form. */
    method ContinueWithOtp()
      modifies this`step
      ensures step == OtpStep
    {
      step := OtpStep;
    }

    /** The Back button of the code screen. */
    method Back()
      modifies this`step
      ensures step == AuthStep
    {
      step := AuthStep;
    }
  }
}

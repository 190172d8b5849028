/**
 * Step 7 of the wizard: the two-phase signing machine. An OTP is requested,
 * typed in and checked; a correct code signs the contract and passes the
 * signature on. Each `await` splits a handler in two methods, so the
 * intermediate states (sending, signing) are visible.
 */
module DigitalSignatureStep {
  import opened Records

  /** The only code the demo accepts. */
  const CorrectOtp: string := "123456"

  /** The input's `maxLength`: at most six characters are kept. */
  const OtpLength: nat := 6

  /** What the OTP input keeps of a typed or pasted value. */
  function Capped(value: string): (s: string)
    ensures |s| <= OtpLength && s <= value
    ensures |value| <= OtpLength ==> s == value
  {
    if |value| <= OtpLength then value else value[..OtpLength]
  }

  /** The sign button: enabled only for a full-length code while no signing is under way. */
  predicate SignEnabled(otp: string, isSigning: bool) {
    |otp| == OtpLength && !isSigning
  }

  /** The back button: disabled while signing and once signed. */
  predicate BackEnabled(isSigning: bool, signed: bool) {
    !(isSigning || signed)
  }

  datatype View = RequestView | OtpForm | SignedView

  /** Which panel the step shows. */
  function ViewOf(otpSent: bool, signed: bool): (v: View)
    ensures v == RequestView <==> !otpSent && !signed
    ensures v == OtpForm <==> otpSent && !signed
    ensures v == SignedView <==> signed
  {
    if signed then SignedView else if otpSent then OtpForm else RequestView
  }

  /** The payload of the automatic continue after signing. */
  function SignaturePayload(signedAt: string): Record {
    map["signature" := Signature(signedAt, CorrectOtp)]
  }

  /** Whatever the clock says, the signature passed on carries the accepted code. */
  lemma SignatureCarriesAcceptedCode(signedAt: string)
    ensures SignaturePayload(signedAt)["signature"].otp == CorrectOtp
    ensures SignEnabled(Capped(CorrectOtp), false)
  {
  }

  class DigitalSignature {
    var otpSent: bool
    var otp: string
    var isSigning: bool
    var signed: bool
    var isSending: bool

    /** Signing needs a sent code; a send is under way only before the code is sent. */
    predicate Valid()
      reads this
    {
      (signed ==> otpSent && !isSigning)
      && (isSigning ==> otpSent)
      && (isSending ==> !otpSent)
      && |otp| <= OtpLength
    }

    constructor ()
      ensures Valid()
      ensures !otpSent && otp == "" && !isSigning && !signed && !isSending
    {
      otpSent := false;
      otp := "";
      isSigning := false;
      signed := false;
      isSending := false;
    }

    function CurrentView(): View
      reads this
    {
      ViewOf(otpSent, signed)
    }

    /** `handleSendOTP` up to its `await`: the request button shows a spinner. */
    method StartSendOtp()
      requires Valid() && CurrentView() == RequestView && !isSending
      modifies this
      ensures Valid() && isSending
      ensures otpSent == old(otpSent) && otp == old(otp) && signed == old(signed)
      ensures isSigning == old(isSigning)
    {
      isSending := true;
    }

    /** `handleSendOTP` after its `await`: the code is sent and the form replaces the request. */
    method FinishSendOtp()
      requires Valid() && isSending
      modifies this
      ensures Valid() && otpSent && !isSending
      ensures otp == old(otp) && signed == old(signed) && isSigning == old(isSigning)
      ensures CurrentView() == OtpForm
    {
      otpSent := true;
      isSending := false;
    }

    /** Typing into the OTP input, which keeps at most six characters. */
    method SetOtp(value: string)
      requires Valid() && CurrentView() == OtpForm
      modifies this
      ensures Valid() && otp == Capped(value)
      ensures otpSent == old(otpSent) && isSigning == old(isSigning) && signed == old(signed)
      ensures isSending == old(isSending)
    {
      otp := Capped(value);
    }

    /**
     * `handleSign` up to its `await`: a wrong code is refused with no change of
     * state; the right one starts the signing.
     */
    method StartSign() returns (accepted: bool)
      requires Valid() && CurrentView() == OtpForm && SignEnabled(otp, isSigning)
      modifies this
      ensures Valid()
      ensures accepted <==> old(otp) == CorrectOtp
      ensures !accepted ==> otpSent == old(otpSent) && otp == old(otp) && !isSigning
                            && signed == old(signed) && isSending == old(isSending)
      ensures accepted ==> isSigning && !signed && otp == old(otp) && otpSent
      ensures isSigning ==> !BackEnabled(isSigning, signed) && !SignEnabled(otp, isSigning)
    {
      if otp != CorrectOtp {
        return false;
      }
      isSigning := true;
      accepted := true;
    }

    /**
     * `handleSign` after its `await`: the contract is signed and the step
     * passes on the signature with the code the handler checked (the text of
     * the input may have changed since).
     */
    method FinishSign(signedAt: string) returns (next: Record)
      requires Valid() && isSigning
      modifies this
      ensures Valid() && signed && !isSigning
      ensures otpSent == old(otpSent) && otp == old(otp)
      ensures CurrentView() == SignedView && !BackEnabled(isSigning, signed)
      ensures next == SignaturePayload(signedAt)
    {
      signed := true;
      isSigning := false;
      next := SignaturePayload(signedAt);
    }
  }
}

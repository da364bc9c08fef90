/** The sign-up page's own rules: the required fields, the password and
    confirmation checks of the form, and the six one-character code slots of
    the verification step with the demo code "123456". Lengths are
    JavaScript's, in UTF-16 code units. */
module SignUpPage {
  import opened Text

  const CodeLength: nat := 6
  const DemoCode: string := "123456"

  /** `otpCode.join('')`. */
  function Join(slots: seq<string>): string
    decreases |slots|
  {
    if slots == [] then "" else slots[0] + Join(slots[1..])
  }

  predicate SlotsWellFormed(slots: seq<string>) {
    forall k :: 0 <= k < |slots| ==> |slots[k]| <= 1
  }

  /** With at most one character per slot, the joined code is as long as the
      number of slots exactly when every slot is filled, and then its
      characters are the slots' characters in order. */
  lemma {:induction false} JoinFilledSlots(slots: seq<string>)
    requires SlotsWellFormed(slots)
    ensures |Join(slots)| <= |slots|
    ensures |Join(slots)| == |slots| <==> forall k :: 0 <= k < |slots| ==> |slots[k]| == 1
    ensures |Join(slots)| == |slots| ==> forall k :: 0 <= k < |slots| ==> Join(slots)[k] == slots[k][0]
    decreases |slots|
  {
    if slots != [] {
      JoinFilledSlots(slots[1..]);
      var rest := Join(slots[1..]);
      assert Join(slots) == slots[0] + rest;
      if |Join(slots)| == |slots| {
        assert |slots[0]| == 1 && |rest| == |slots| - 1;
        forall k | 0 <= k < |slots| ensures Join(slots)[k] == slots[k][0] {
          if k > 0 {
            assert Join(slots)[k] == rest[k - 1];
          }
        }
      }
      if forall k :: 0 <= k < |slots| ==> |slots[k]| == 1 {
        assert forall k :: 0 <= k < |slots[1..]| ==> |slots[1..][k]| == 1 by {
          forall k | 0 <= k < |slots[1..]| ensures |slots[1..][k]| == 1 {
            assert slots[1..][k] == slots[k + 1];
          }
        }
      }
    }
  }

  /** The verification passes exactly when the six slots hold "1" to "6" in order. */
  lemma VerifiesIffDemoDigits(slots: seq<string>)
    requires |slots| == CodeLength && SlotsWellFormed(slots)
    ensures Join(slots) == DemoCode <==> slots == ["1", "2", "3", "4", "5", "6"]
  {
    JoinFilledSlots(slots);
    if Join(slots) == DemoCode {
      forall k | 0 <= k < CodeLength ensures slots[k] == [DemoCode[k]] {
        assert |slots[k]| == 1 && slots[k][0] == DemoCode[k];
      }
    }
  }

  /** Password: `required` with `minLength: 6`; confirmation: `required` and
      equal to the password. Accepted pairs are equal and at least six UTF-16
      code units long. */
  function PasswordsAccepted(password: string, confirm: string): (r: bool)
    ensures r <==> Utf16Length(password) >= 6 && confirm == password
    ensures r ==> Utf16Length(confirm) >= 6 && confirm != ""
  {
    Utf16Length(password) >= 6 && confirm != "" && confirm == password
  }

  /** The values of the sign-up form. `emailMatches` is the verdict of the
      email pattern on `email`; `agreeToTerms` is the terms checkbox. */
  datatype SignUpForm = SignUpForm(
    username: string, email: string, emailMatches: bool, phoneNumber: string,
    password: string, confirmPassword: string, agreeToTerms: bool)

  datatype Step = FormStep | VerificationStep

  class SignUp {
    var step: Step
    var otpCode: seq<string>

    /** Six slots of at most one character each. */
    predicate Valid()
      reads this
    {
      |otpCode| == CodeLength && SlotsWellFormed(otpCode)
    }

    constructor ()
      ensures step == FormStep && otpCode == ["", "", "", "", "", ""]
      ensures Valid()
    {
      step := FormStep;
      otpCode := ["", "", "", "", "", ""];
    }

    /** `handleSubmit(onSubmit)`: the rules are checked field by field, and
        only a form passing all of them reaches `onSubmit`, which moves to the
        verification step. */
    method SubmitForm(f: SignUpForm) returns (accepted: bool)
      modifies this`step
      ensures accepted <==> f.username != "" && f.email != "" && f.emailMatches && f.phoneNumber != ""
                            && PasswordsAccepted(f.password, f.confirmPassword) && f.agreeToTerms
      ensures step == if accepted then VerificationStep else old(step)
    {
      accepted := false;
      if f.username == "" || f.email == "" || !f.emailMatches || f.phoneNumber == "" {
        return;
      }
      if Utf16Length(f.password) < 6 || f.confirmPassword == "" || f.confirmPassword != f.password {
        return;
      }
      if !f.agreeToTerms {
        return;
      }
      accepted := true;
      step := VerificationStep;
    }

    /** `handleOtpChange(index, value)`: a value longer than one UTF-16 code
        unit is ignored; otherwise slot `index` of a copy is set and stored.
        `index` is the position of one of the six inputs. */
    method HandleOtpChange(index: nat, value: string)
      requires index < CodeLength && Valid()
      modifies this`otpCode
      ensures Utf16Length(value) > 1 ==> otpCode == old(otpCode)
      ensures Utf16Length(value) <= 1 ==> otpCode == old(otpCode)[index := value]
      ensures Valid()
    {
      if Utf16Length(value) <= 1 {
        var copy := otpCode;
        copy := copy[index := value];
        otpCode := copy;
      }
    }

    /** `handleVerification`: the joined code "123456" leads home, anything
        else raises the alert. */
    method HandleVerification() returns (goesHome: bool)
      requires Valid()
      ensures goesHome <==> otpCode == ["1", "2", "3", "4", "5", "6"]
    {
      VerifiesIffDemoDigits(otpCode);
      goesHome := Join(otpCode) == DemoCode;
    }
  }
}

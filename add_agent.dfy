/** The add-agent form: the phone and country-code inputs are cleaned as the
    user types, and three checks gate the register request. */
module AddAgent {
  import opened Wrappers
  import opened Text
  import opened JsValues

  // ----- handleChange

  predicate IsDigitOrPlus(c: char)
  {
    IsDecimalDigit(c) || c == '+'
  }

  function Min(a: nat, b: nat): nat
  {
    if a <= b then a else b
  }

  /** `value.replace(/\D/g, "").slice(0, 10)`: the first ten digits typed,
      in order. */
  function SanitizePhone(value: string): (cleaned: string)
    ensures AllDigits(cleaned) && |cleaned| <= 10
    ensures cleaned <= Filter(value, IsDecimalDigit)
    ensures |cleaned| == Min(10, |Filter(value, IsDecimalDigit)|)
  {
    Take(Filter(value, IsDecimalDigit), 10)
  }

  /** `value.replace(/[^\d+]/g, "").slice(0, 5)`: the first five digits and
      plus signs typed, in order. */
  function SanitizeCountryCode(value: string): (cleaned: string)
    ensures forall i :: 0 <= i < |cleaned| ==> IsDigitOrPlus(cleaned[i])
    ensures |cleaned| <= 5
    ensures cleaned <= Filter(value, IsDigitOrPlus)
    ensures |cleaned| == Min(5, |Filter(value, IsDigitOrPlus)|)
  {
    Take(Filter(value, IsDigitOrPlus), 5)
  }

  /** A phone value is left alone exactly when it is at most ten digits. */
  lemma PhoneFixedPoint(value: string)
    ensures SanitizePhone(value) == value <==> AllDigits(value) && |value| <= 10
  {
    if AllDigits(value) && |value| <= 10 {
      FilterKeepsAll(value, IsDecimalDigit);
    }
  }

  lemma SanitizePhoneIdempotent(value: string)
    ensures SanitizePhone(SanitizePhone(value)) == SanitizePhone(value)
  {
    PhoneFixedPoint(SanitizePhone(value));
  }

  /** A country-code value is left alone exactly when it is at most five
      digits and plus signs. */
  lemma CodeFixedPoint(value: string)
    ensures SanitizeCountryCode(value) == value
        <==> (forall i :: 0 <= i < |value| ==> IsDigitOrPlus(value[i])) && |value| <= 5
  {
    if (forall i :: 0 <= i < |value| ==> IsDigitOrPlus(value[i])) && |value| <= 5 {
      FilterKeepsAll(value, IsDigitOrPlus);
    }
  }

  lemma SanitizeCountryCodeIdempotent(value: string)
    ensures SanitizeCountryCode(SanitizeCountryCode(value)) == SanitizeCountryCode(value)
  {
    CodeFixedPoint(SanitizeCountryCode(value));
  }

  /** Where the typed value goes: the cleaned text for phone and country
      code, the text as typed for every other field. */
  function Cleaned(name: string, value: string): string
  {
    if name == "phone" then SanitizePhone(value)
    else if name == "country_code" then SanitizeCountryCode(value)
    else value
  }

  // ----- handleSubmit

  const FillAll := "Please fill all fields."
  const PhoneInvalid := "Please enter a valid 10-digit phone number."
  const CodeInvalid := "Enter a valid country code, like +91 or 1."
  const AddFailed := "Failed to add agent."

  /** `/^\d{10}$/` */
  predicate IsTenDigits(s: string)
  {
    |s| == 10 && AllDigits(s)
  }

  /** `/^\+?\d{1,5}$/` */
  predicate IsValidCountryCode(s: string)
  {
    if |s| > 0 && s[0] == '+' then 1 <= |s| - 1 <= 5 && AllDigits(s[1..])
    else 1 <= |s| <= 5 && AllDigits(s)
  }

  const Required: seq<string> := ["username", "user_lastname", "email", "phone", "password"]

  predicate AllFilled(form: Record)
  {
    forall i :: 0 <= i < |Required| ==> !Falsy(Get(form, Required[i]))
  }

  /** The three checks before the register request, in order; the first
      failure's alert, or `None` when all pass. A regular expression's
      `test` sees its argument converted to a string. */
  function SubmitCheck(form: Record): (r: Option<string>)
    ensures r.None? <==> AllFilled(form)
                          && IsTenDigits(ToStr(Get(form, "phone")))
                          && IsValidCountryCode(ToStr(Get(form, "country_code")))
    ensures r == Some(FillAll) <==> exists i :: 0 <= i < |Required| && Falsy(Get(form, Required[i]))
    ensures r == Some(PhoneInvalid) <==> AllFilled(form) && !IsTenDigits(ToStr(Get(form, "phone")))
    ensures r == Some(CodeInvalid) <==> AllFilled(form) && IsTenDigits(ToStr(Get(form, "phone")))
                                         && !IsValidCountryCode(ToStr(Get(form, "country_code")))
  {
    if !AllFilled(form) then Some(FillAll)
    else if !IsTenDigits(ToStr(Get(form, "phone"))) then Some(PhoneInvalid)
    else if !IsValidCountryCode(ToStr(Get(form, "country_code"))) then Some(CodeInvalid)
    else None
  }

  /** The register body: the five fields and the country code from the
      form, and `is_agent` set to `true`. */
  function RegisterPayload(form: Record): (body: Record)
    ensures body.Keys == {"username", "user_lastname", "email", "country_code", "phone", "password", "is_agent"}
    ensures body["is_agent"] == Bool(true)
    ensures forall k :: k in body && k != "is_agent" ==> body[k] == Get(form, k)
  {
    map["username" := Get(form, "username"),
        "user_lastname" := Get(form, "user_lastname"),
        "email" := Get(form, "email"),
        "country_code" := Get(form, "country_code"),
        "phone" := Get(form, "phone"),
        "password" := Get(form, "password"),
        "is_agent" := Bool(true)]
  }

  // ----- properties of the gates

  /** The phone input passes the phone check exactly when at least ten
      digits were typed into it. */
  lemma CleanedPhonePasses(value: string)
    ensures IsTenDigits(SanitizePhone(value)) <==> |Filter(value, IsDecimalDigit)| >= 10
  {
  }

  /** A cleaned country code passes exactly when it is not empty, not a lone
      `+`, and has no `+` after its first character. */
  lemma CleanedCodePasses(value: string)
    ensures var c := SanitizeCountryCode(value);
            IsValidCountryCode(c) <==> c != "" && c != "+" && forall i :: 1 <= i < |c| ==> c[i] != '+'
  {
    var c := SanitizeCountryCode(value);
    if c != "" && c != "+" && forall i :: 1 <= i < |c| ==> c[i] != '+' {
      if c[0] == '+' {
        assert forall i :: 0 <= i < |c[1..]| ==> c[1..][i] == c[i + 1];
      }
    }
  }

  /** The cleaner lets "1+2" through unchanged, and the submit check still
      refuses it. */
  lemma PlusInsideRejected()
    ensures SanitizeCountryCode("1+2") == "1+2"
    ensures !IsValidCountryCode("1+2")
  {
    CodeFixedPoint("1+2");
  }

  /** A valid code of at most five characters survives the cleaner. */
  lemma ValidCodeKept(code: string)
    requires IsValidCountryCode(code) && |code| <= 5
    ensures SanitizeCountryCode(code) == code
  {
    CodeFixedPoint(code);
  }

  datatype Request = Register(body: Record)

  datatype RegisterReply = Registered | RegisterThrew

  class AgentForm {
    var formData: Record
    var alerts: seq<string>       // browser alerts shown, oldest first
    var sent: seq<Request>        // requests issued, oldest first
    var finished: bool            // `onAgentAdded` and `onClose` called

    /** The form starts as the `form` prop. */
    constructor (form: Record)
      ensures formData == form && alerts == [] && sent == [] && !finished
    {
      formData := form;
      alerts := [];
      sent := [];
      finished := false;
    }

    /** One keystroke in the input called `name`. Returns what is passed
        on to the parent's `onChange`. */
    method HandleChange(name: string, value: string) returns (forwarded: string)
      modifies this`formData
      ensures forwarded == Cleaned(name, value)
      ensures formData == old(formData)[name := Str(forwarded)]
    {
      if name == "phone" {
        forwarded := SanitizePhone(value);
      } else if name == "country_code" {
        forwarded := SanitizeCountryCode(value);
      } else {
        forwarded := value;
      }
      formData := formData[name := Str(forwarded)];
    }

    /** "Add": a failed check shows its alert and sends nothing; otherwise
        the register request is sent, and a throw shows an alert while a
        reply closes the form. */
    method HandleSubmit(reply: RegisterReply)
      modifies this`alerts, this`sent, this`finished
      ensures SubmitCheck(formData).Some? ==>
                alerts == old(alerts) + [SubmitCheck(formData).value]
                && sent == old(sent) && finished == old(finished)
      ensures SubmitCheck(formData).None? ==> sent == old(sent) + [Register(RegisterPayload(formData))]
      ensures SubmitCheck(formData).None? && reply == Registered ==> finished && alerts == old(alerts)
      ensures SubmitCheck(formData).None? && reply == RegisterThrew ==>
                alerts == old(alerts) + [AddFailed] && finished == old(finished)
    {
      var problem := SubmitCheck(formData);
      if problem.Some? {
        alerts := alerts + [problem.value];
        return;
      }
      sent := sent + [Register(RegisterPayload(formData))];
      if reply == RegisterThrew {
        alerts := alerts + [AddFailed];
      } else {
        finished := true;
      }
    }
  }

  /** Whatever is typed into the phone input, the field it leaves behind
      never trips the phone check once ten digits have been typed. */
  lemma TypedPhoneAccepted(form: Record, value: string)
    requires |Filter(value, IsDecimalDigit)| >= 10
    ensures IsTenDigits(ToStr(Get(form["phone" := Str(Cleaned("phone", value))], "phone")))
  {
    CleanedPhonePasses(value);
  }
}

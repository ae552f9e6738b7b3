/**
  The non-visual rules of the signup form: the phone number sent to
  registration, the field-interaction gate, the `isSubmitting` flag across the
  submit and failure paths, the error message shown on failure, the submit
  button's click guard, and the tracking payloads each of these sends.
*/
module Signup {
  import opened Wrappers
  import opened MetaPixel

  /** A character `\d` matches: an ASCII decimal digit. */
  predicate IsDigit(c: char)
  {
    '0' <= c <= '9'
  }

  /** `s.replace(/\D/g, '')`: the digits of `s`, in order. */
  function Digits(s: string): (d: string)
    ensures |d| <= |s|
    ensures forall i | 0 <= i < |d| :: IsDigit(d[i])
  {
    if s == [] then []
    else (if IsDigit(s[0]) then [s[0]] else []) + Digits(s[1..])
  }

  /** Filtering distributes over concatenation, so the digits keep their order. */
  lemma {:induction false} DigitsAppend(a: string, b: string)
    ensures Digits(a + b) == Digits(a) + Digits(b)
  {
    if a == [] {
      assert a + b == b;
    } else {
      assert (a + b)[0] == a[0] && (a + b)[1..] == a[1..] + b;
      DigitsAppend(a[1..], b);
    }
  }

  /** Every digit occurs in the result as often as in the input; no other character occurs. */
  lemma {:induction false} DigitsCounts(s: string)
    ensures forall c :: multiset(Digits(s))[c] == if IsDigit(c) then multiset(s)[c] else 0
  {
    if s != [] {
      DigitsCounts(s[1..]);
      assert s == [s[0]] + s[1..];
    }
  }

  /** A string of digits only is left as it is; in particular filtering twice is filtering once. */
  lemma {:induction false} DigitsOfDigits(s: string)
    requires forall i | 0 <= i < |s| :: IsDigit(s[i])
    ensures Digits(s) == s
  {
    if s != [] {
      DigitsOfDigits(s[1..]);
    }
  }

  lemma DigitsIdempotent(s: string)
    ensures Digits(Digits(s)) == Digits(s)
  {
    DigitsOfDigits(Digits(s));
  }

  /** The phone number sent to registration: the country code, then the digits of the number. */
  function FormatPhone(countryCode: string, phoneNumber: string): (phone: string)
    ensures |countryCode| <= |phone| <= |countryCode| + |phoneNumber|
    ensures phone[..|countryCode|] == countryCode
    ensures forall i | |countryCode| <= i < |phone| :: IsDigit(phone[i])
  {
    countryCode + Digits(phoneNumber)
  }

  /** Formatting keeps the digits of the number and drops only its other characters. */
  lemma FormatPhoneKeepsDigits(countryCode: string, phoneNumber: string)
    ensures var phone := FormatPhone(countryCode, phoneNumber);
      && phone[|countryCode|..] == Digits(phoneNumber)
      && (forall c | IsDigit(c) :: multiset(phone[|countryCode|..])[c] == multiset(phoneNumber)[c])
      && (forall c | !IsDigit(c) :: multiset(phone[|countryCode|..])[c] == 0)
  {
    var phone := FormatPhone(countryCode, phoneNumber);
    assert phone[|countryCode|..] == Digits(phoneNumber);
    DigitsCounts(phoneNumber);
  }

  const RegistrationFailed := "Registration failed. Please try again."

  /** The message shown on failure: the server's message when it has one, else the generic one. */
  function ErrorMessage(serverMessage: Option<string>): (m: string)
    ensures m != ""
    ensures Truthy(serverMessage) ==> m == serverMessage.value
    ensures !Truthy(serverMessage) ==> m == RegistrationFailed
  {
    if Truthy(serverMessage) then serverMessage.value else RegistrationFailed
  }

  /** The values the form holds when it is submitted (after schema validation, which is not modelled). */
  datatype SignupData = SignupData(
    firstName: string, lastName: string, email: string,
    countryCode: string, phoneNumber: string, country: string,
    password: string, passwordConfirmation: string, agreeTerms: bool)

  /** The request handed to `register`. */
  datatype RegisterRequest = RegisterRequest(
    firstName: string, lastName: string, email: string,
    password: string, passwordConfirmation: string,
    country: string, countryCode: string, phoneNumber: string)

  /** How the `register` call ends: it resolves, or it rejects with the server's message if any. */
  datatype RegisterOutcome = Registered | Rejected(serverMessage: Option<string>)

  function RequestFor(data: SignupData): RegisterRequest
  {
    RegisterRequest(data.firstName, data.lastName, data.email, data.password, data.passwordConfirmation,
                    data.country, data.countryCode, FormatPhone(data.countryCode, data.phoneNumber))
  }

  /** The field-interaction gate: a value is reported once it is longer than three characters. */
  predicate ReportsField(value: string)
  {
    value != "" && |value| > 3
  }

  function FieldChangeOptions(field: string, value: string): TrackOptions
  {
    TrackOptions(CustomizeProduct, None, Some(map[
      "content_name" := Str("signup_field_interaction"),
      "field_name" := Str(field),
      "has_value" := Bool(value != ""),
      "status" := Str("in_progress")]), None)
  }

  /** A reported field interaction names the field, says it has a value, and is in progress. */
  lemma FieldChangePayload(field: string, value: string)
    requires ReportsField(value)
    ensures var opts := FieldChangeOptions(field, value);
      && opts.event == CustomizeProduct && opts.userData == None && opts.eventId == None
      && opts.customData.Some?
      && opts.customData.value.Keys == {"content_name", "field_name", "has_value", "status"}
      && opts.customData.value["content_name"] == Str("signup_field_interaction")
      && opts.customData.value["field_name"] == Str(field)
      && opts.customData.value["has_value"] == Bool(true)
      && opts.customData.value["status"] == Str("in_progress")
  {
  }

  /** The gate is exactly "longer than three characters": the emptiness test never decides. */
  lemma FieldGateIsLength(value: string)
    ensures ReportsField(value) <==> |value| > 3
  {
  }

  /** The default value of every field the mount-time block tracks (`defaultValues`). */
  const FieldDefault := ""

  /**
    The mount-time change handler as written: it was registered with the value
    `form.watch` returned at mount (`captured`) and reports on that value, whatever
    has been `typed` since.
  */
  function MountHandlerReports(field: string, captured: string, typed: string): seq<TrackOptions>
  {
    if ReportsField(captured) then [FieldChangeOptions(field, captured)] else []
  }

  /** The change handler as intended: it reports on the value being typed. */
  function ChangeHandlerReports(field: string, typed: string): (reports: seq<TrackOptions>)
    ensures |reports| <= 1
    ensures |reports| == 1 <==> |typed| > 3
    ensures |reports| == 1 ==> reports[0] == FieldChangeOptions(field, typed)
  {
    if ReportsField(typed) then [FieldChangeOptions(field, typed)] else []
  }

  /**
    Registered at mount, every handler captured the empty default, so typing an
    email never reports an interaction; the intended handler reports it.
  */
  lemma MountHandlerIgnoresTyping(field: string, typed: string)
    ensures MountHandlerReports(field, FieldDefault, typed) == []
    ensures ChangeHandlerReports("email", "alice@example.com") != []
  {
  }

  function SubmitOptions(data: SignupData): TrackOptions
  {
    TrackOptions(InitiateCheckout,
      Some(NoUserData.(email := Some(data.email), firstName := Some(data.firstName),
                       lastName := Some(data.lastName), country := Some(data.country))),
      Some(map[
        "content_name" := Str("signup_form"),
        "content_category" := Str("registration"),
        "status" := Str("submitted")]), None)
  }

  function FailureOptions(email: string, message: string): TrackOptions
  {
    TrackOptions(Lead,
      Some(NoUserData.(email := Some(email))),
      Some(map[
        "content_name" := Str("signup_failure"),
        "content_category" := Str("registration"),
        "status" := Str("failed"),
        "error_message" := Str(message)]), None)
  }

  const ButtonClickOptions := TrackOptions(InitiateCheckout, None, Some(map[
    "content_name" := Str("signup_button_click"),
    "content_category" := Str("registration"),
    "status" := Str("clicked")]), None)

  /**
    The submit event identifies the user by email, names and country only: the
    phone number, though formatted, is never sent to the pixel.
  */
  lemma SubmitSendsNoPhone(data: SignupData)
    ensures var p := UserParams(SubmitOptions(data).userData);
      && p.Keys <= {"em", "fn", "ln", "country"}
      && "ph" !in p
      && (data.email != "" ==> "em" in p && p["em"] == Str(data.email))
      && (data.country != "" ==> "country" in p && p["country"] == Str(data.country))
  {
    var u := SubmitOptions(data).userData.value;
    assert ShortKey(Phone) == Some("ph") && FieldValue(u, Phone) == None;
    assert ShortKey(Email) == Some("em") && ShortKey(Country) == Some("country");
    forall k | k in UserParams(SubmitOptions(data).userData) ensures k in {"em", "fn", "ln", "country"} {
      assert ShortKey(City) == Some("ct") && FieldValue(u, City) == None;
      assert ShortKey(State) == Some("st") && FieldValue(u, State) == None;
      assert ShortKey(Zip) == Some("zp") && FieldValue(u, Zip) == None;
      assert ShortKey(ExternalId) == Some("external_id") && FieldValue(u, ExternalId) == None;
    }
  }

  /**
    The failure event reports the message the user is shown, and identifies the
    user by email alone.
  */
  lemma FailureReportsShownMessage(data: SignupData, serverMessage: Option<string>)
    ensures var opts := FailureOptions(data.email, ErrorMessage(serverMessage));
      && opts.event == Lead
      && opts.customData.value["error_message"] == Str(ErrorMessage(serverMessage))
      && opts.customData.value["status"] == Str("failed")
      && UserParams(opts.userData) == (if data.email != "" then map["em" := Str(data.email)] else map[])
  {
    var u := NoUserData.(email := Some(data.email));
    var p := UserParams(Some(u));
    assert ShortKey(Email) == Some("em");
    forall k | k in p ensures k == "em" {
      assert k in UserKeys;
      assert ShortKey(Phone) == Some("ph") && ShortKey(FirstName) == Some("fn") && ShortKey(LastName) == Some("ln");
      assert ShortKey(City) == Some("ct") && ShortKey(State) == Some("st") && ShortKey(Zip) == Some("zp");
      assert ShortKey(Country) == Some("country") && ShortKey(ExternalId) == Some("external_id");
    }
  }

  /**
    The signup form's own state: the `isSubmitting` flag, and the pixel its
    `trackEvent` reaches.
  */
  class SignupForm {
    const pixel: Pixel
    var isSubmitting: bool

    constructor (pixel: Pixel)
      ensures this.pixel == pixel && !isSubmitting
    {
      this.pixel := pixel;
      isSubmitting := false;
    }

    /** `trackFieldChange`: report an interaction with `field` once its value is long enough. */
    method TrackFieldChange(field: string, value: string)
      modifies pixel`sent
      ensures var reports := ChangeHandlerReports(field, value);
        pixel.sent == old(pixel.sent) + (if reports != [] then pixel.Emitted(reports[0]) else [])
    {
      if ReportsField(value) {
        pixel.TrackEvent(FieldChangeOptions(field, value));
      }
    }

    /**
      `handleSubmit`, run to its end with `register` ending as `outcome`. The flag
      is raised first and lowered only on failure; a successful registration leaves
      it raised. Returns the request sent to `register` and the message shown, if any.
    */
    method HandleSubmit(data: SignupData, outcome: RegisterOutcome) returns (request: RegisterRequest, shown: Option<string>)
      modifies this`isSubmitting, pixel`sent
      ensures request == RequestFor(data)
      ensures request.phoneNumber == FormatPhone(data.countryCode, data.phoneNumber)
      ensures isSubmitting <==> outcome.Registered?
      ensures shown == if outcome.Rejected? then Some(ErrorMessage(outcome.serverMessage)) else None
      ensures pixel.sent == old(pixel.sent) + pixel.Emitted(SubmitOptions(data)) +
        (if outcome.Rejected? then pixel.Emitted(FailureOptions(data.email, shown.value)) else [])
    {
      isSubmitting := true;
      var formattedPhone := data.countryCode + Digits(data.phoneNumber);
      pixel.TrackEvent(SubmitOptions(data));
      request := RegisterRequest(data.firstName, data.lastName, data.email, data.password,
                                 data.passwordConfirmation, data.country, data.countryCode, formattedPhone);
      match outcome {
        case Registered =>
          shown := None;
        case Rejected(serverMessage) =>
          var errorMessage := if Truthy(serverMessage) then serverMessage.value else RegistrationFailed;
          shown := Some(errorMessage);
          pixel.TrackEvent(FailureOptions(data.email, errorMessage));
          isSubmitting := false;
      }
    }

    /** The submit button's click handler: report the click unless a submission is in progress. */
    method ClickSubmitButton()
      modifies pixel`sent
      ensures pixel.sent == old(pixel.sent) + (if !isSubmitting then pixel.Emitted(ButtonClickOptions) else [])
    {
      if !isSubmitting {
        pixel.TrackEvent(ButtonClickOptions);
      }
    }
  }
}

/**
 * Request and response models of the doctor-booking REST backend
 * (backend/models.py): the field validators of `AppointmentCreate` and the
 * defaults of the chat message models.
 */
module Models {
  import opened Wrappers
  import opened Text

  const PhoneError := "Phone number must be 10 digits"
  const NameError := "Name must be at least 2 characters"
  const ProblemError := "Problem description must be at least 5 characters"

  /** The characters removed from a phone number before it is checked. */
  const PhoneSeparators: set<char> := {' ', '-'}

  /** `v.replace(" ", "").replace("-", "")`. */
  function CleanPhone(v: string): string {
    RemoveChars(v, PhoneSeparators)
  }

  /** Every character is a digit, a space or a dash. */
  predicate PhoneCharsOnly(v: string) {
    forall i :: 0 <= i < |v| ==> IsDigit(v[i]) || v[i] in PhoneSeparators
  }

  /** `validate_phone`: accepts a phone made of digits, spaces and dashes with exactly ten digits, and returns the digits. */
  function ValidatePhone(v: string): (r: Result<string, string>)
    ensures r.Ok? <==> PhoneCharsOnly(v) && |DigitsOf(v)| == 10
    ensures r.Ok? ==> r.value == DigitsOf(v)
    ensures r.Err? ==> r.error == PhoneError
  {
    CleanPhoneDigits(v);
    var cleaned := CleanPhone(v);
    if !AllDigits(cleaned) || |cleaned| != 10 then Err(PhoneError) else Ok(cleaned)
  }

  /** Removing spaces and dashes leaves only digits exactly when nothing else was there, and then leaves the digits. */
  lemma {:induction false} CleanPhoneDigits(v: string)
    ensures (forall i :: 0 <= i < |CleanPhone(v)| ==> IsDigit(CleanPhone(v)[i])) <==> PhoneCharsOnly(v)
    ensures PhoneCharsOnly(v) ==> CleanPhone(v) == DigitsOf(v)
  {
    if v != [] {
      CleanPhoneDigits(v[1..]);
      var head := if v[0] in PhoneSeparators then [] else [v[0]];
      assert CleanPhone(v) == head + CleanPhone(v[1..]);
      if !PhoneCharsOnly(v) && PhoneCharsOnly(v[1..]) {
        assert !IsDigit(v[0]) && v[0] !in PhoneSeparators;
        assert CleanPhone(v)[0] == v[0];
      }
      if !PhoneCharsOnly(v[1..]) {
        var k :| 0 <= k < |v[1..]| && !(IsDigit(v[1..][k]) || v[1..][k] in PhoneSeparators);
        assert !PhoneCharsOnly(v) by { assert v[k + 1] == v[1..][k]; }
        var c := CleanPhone(v[1..]);
        var j :| 0 <= j < |c| && !IsDigit(c[j]);
        assert CleanPhone(v)[|head| + j] == c[j];
      }
      if PhoneCharsOnly(v) {
        assert PhoneCharsOnly(v[1..]) by {
          forall i | 0 <= i < |v[1..]| ensures IsDigit(v[1..][i]) || v[1..][i] in PhoneSeparators {
            assert v[1..][i] == v[i + 1];
          }
        }
      }
    }
  }

  /** A phone that passed validation passes again unchanged. */
  lemma ValidatePhoneIdempotent(v: string)
    requires ValidatePhone(v).Ok?
    ensures ValidatePhone(ValidatePhone(v).value) == ValidatePhone(v)
  {
    var d := DigitsOf(v);
    DigitsOfDigits(d);
    assert PhoneCharsOnly(d);
  }

  /** `validate_name`: the stripped name, which must have at least 2 characters. */
  function ValidateName(v: string): (r: Result<string, string>)
    ensures r.Ok? ==> Stripped(r.value) && |r.value| >= 2
    ensures r.Err? ==> r.error == NameError
  {
    if |Strip(v)| < 2 then Err(NameError) else Ok(Strip(v))
  }

  /** `validate_problem`: the stripped description, which must have at least 5 characters. */
  function ValidateProblem(v: string): (r: Result<string, string>)
    ensures r.Ok? ==> Stripped(r.value) && |r.value| >= 5
    ensures r.Err? ==> r.error == ProblemError
  {
    if |Strip(v)| < 5 then Err(ProblemError) else Ok(Strip(v))
  }

  /** A name is rejected exactly when it is too short once stripped; accepted names validate to themselves. */
  lemma ValidateNameSpec(v: string)
    ensures ValidateName(v).Ok? <==> |Strip(v)| >= 2
    ensures ValidateName(v).Ok? ==> ValidateName(v).value == Strip(v)
    ensures ValidateName(v).Ok? ==> ValidateName(ValidateName(v).value) == ValidateName(v)
  {
    StripIdempotent(v);
  }

  /** A description is rejected exactly when it is too short once stripped; accepted ones validate to themselves. */
  lemma ValidateProblemSpec(v: string)
    ensures ValidateProblem(v).Ok? <==> |Strip(v)| >= 5
    ensures ValidateProblem(v).Ok? ==> ValidateProblem(v).value == Strip(v)
    ensures ValidateProblem(v).Ok? ==> ValidateProblem(ValidateProblem(v).value) == ValidateProblem(v)
  {
    StripIdempotent(v);
  }

  /** The body of a booking request. */
  datatype AppointmentCreate = AppointmentCreate(
    doctorId: int, patientName: string, phone: string, problem: string, date: string, time: string)

  /**
   * Validation of a whole request: every field validator runs, in field
   * order, and either all pass (the request then holds the cleaned values)
   * or the request is refused with the messages of those that failed.
   */
  function ValidateAppointment(raw: AppointmentCreate): (r: Result<AppointmentCreate, seq<string>>)
    ensures r.Ok? <==> ValidateName(raw.patientName).Ok? && ValidatePhone(raw.phone).Ok? && ValidateProblem(raw.problem).Ok?
    ensures r.Ok? ==> r.value == raw.(patientName := Strip(raw.patientName), phone := DigitsOf(raw.phone), problem := Strip(raw.problem))
    ensures r.Err? ==> 1 <= |r.error| <= 3
    ensures r.Err? ==> (r.error ==
      (if |Strip(raw.patientName)| < 2 then [NameError] else []) +
      (if PhoneCharsOnly(raw.phone) && |DigitsOf(raw.phone)| == 10 then [] else [PhoneError]) +
      (if |Strip(raw.problem)| < 5 then [ProblemError] else []))
  {
    ValidateNameSpec(raw.patientName);
    ValidateProblemSpec(raw.problem);
    var name, phone, problem := ValidateName(raw.patientName), ValidatePhone(raw.phone), ValidateProblem(raw.problem);
    var errors :=
      (if name.Err? then [name.error] else []) +
      (if phone.Err? then [phone.error] else []) +
      (if problem.Err? then [problem.error] else []);
    if errors == [] then
      Ok(raw.(patientName := name.value, phone := phone.value, problem := problem.value))
    else Err(errors)
  }

  /** A chat request; the session and the doctor are optional. */
  datatype ChatMessage = ChatMessage(message: string, sessionId: Option<string>, doctorId: Option<int>)

  /** A chat reply carrying the collected appointment data, of type `D`. */
  datatype ChatResponse<D> = ChatResponse(response: string, sessionId: string, appointmentData: Option<D>, isComplete: bool)

  /** A chat request built from its text alone: no session, no doctor. */
  function ChatMessageOf(message: string): (m: ChatMessage)
    ensures m.message == message && m.sessionId.None? && m.doctorId.None?
  {
    ChatMessage(message, None, None)
  }

  /** A chat reply built from its text and session alone: no data, not complete. */
  function ChatResponseOf<D>(response: string, sessionId: string): (r: ChatResponse<D>)
    ensures r.response == response && r.sessionId == sessionId
    ensures r.appointmentData.None? && !r.isComplete
  {
    ChatResponse(response, sessionId, None, false)
  }
}

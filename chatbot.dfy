/**
 * The rule-based booking chatbot of the REST backend (backend/chatbot.py).
 * Each session walks greeting -> ask_name -> ask_phone -> ask_problem ->
 * ask_date -> ask_time -> confirm -> complete, one accepted message per step;
 * a rejected message leaves the session as it was, and "no" at the
 * confirmation starts over. The clock and the date/time parser (`strptime`)
 * are parameters (`Env`).
 */
module Chatbot {
  import opened Wrappers
  import opened Text
  import Regex
  import Models

  // The conversation states, numbered as the chatbot numbers them.
  const Greeting := 0
  const AskName := 1
  const AskPhone := 2
  const AskProblem := 3
  const AskDate := 4
  const AskTime := 5
  const Confirm := 6
  const Complete := 7

  /** `get_next_state`: the state after `current` in the conversation. */
  function GetNextState(current: int): (next: int)
    ensures current == Greeting ==> next == AskName
    ensures current == AskName ==> next == AskPhone
    ensures current == AskPhone ==> next == AskProblem
    ensures current == AskProblem ==> next == AskDate
    ensures current == AskDate ==> next == AskTime
    ensures current == AskTime ==> next == Confirm
    ensures current == Confirm ==> next == Complete
  {
    current + 1
  }

  // ---------------------------------------------------------------- validators

  /** `validate_phone`: ten digits once spaces and dashes are removed. */
  predicate ValidatePhone(phone: string) {
    var cleaned := RemoveChars(phone, {' ', '-'});
    AllDigits(cleaned) && |cleaned| == 10
  }

  /**
   * The chatbot's phone rule: only digits, spaces and dashes, ten digits in
   * all; what remains once spaces and dashes are gone is those digits.
   */
  lemma ValidatePhoneSpec(phone: string)
    ensures ValidatePhone(phone) <==> Models.PhoneCharsOnly(phone) && |DigitsOf(phone)| == 10
    ensures ValidatePhone(phone) ==> RemoveChars(phone, {' ', '-'}) == DigitsOf(phone)
  {
    Models.CleanPhoneDigits(phone);
  }

  /** A calendar date as `strptime` returns it (at midnight). */
  datatype Date = Date(year: nat, month: nat, day: nat)

  /** A time of day as `strptime` returns it. */
  datatype TimeOfDay = TimeOfDay(hour: nat, minute: nat)

  /** The accepted date formats: `%Y-%m-%d`, `%d-%m-%Y`, `%d/%m/%Y`, `%Y/%m/%d`. */
  datatype DateFormat = YmdDash | DmyDash | DmySlash | YmdSlash

  /** The accepted time formats: `%H:%M`, `%H:%M:%S`, `%I:%M %p`, `%I:%M%p`. */
  datatype TimeFormat = HourMinute | HourMinuteSecond | HourMinuteSpaceAmPm | HourMinuteAmPm

  const DateFormats: seq<DateFormat> := [YmdDash, DmyDash, DmySlash, YmdSlash]
  const TimeFormats: seq<TimeFormat> := [HourMinute, HourMinuteSecond, HourMinuteSpaceAmPm, HourMinuteAmPm]

  /**
   * What the chatbot takes from its surroundings: today's date (the midnight
   * of `datetime.now()`) and `strptime` for each format (`None` where it
   * raises `ValueError`).
   */
  datatype Env = Env(
    today: Date,
    parseDate: (string, DateFormat) -> Option<Date>,
    parseTime: (string, TimeFormat) -> Option<TimeOfDay>)

  const DateFormatError := "Invalid date format. Please use DD-MM-YYYY or YYYY-MM-DD"
  const PastDateError := "Please select a future date"

  /** The result of the first format that parses `s`, trying the formats in order. */
  function FirstParse<F, T>(s: string, formats: seq<F>, parse: (string, F) -> Option<T>): (r: Option<T>)
    ensures r.Some? ==> exists k :: 0 <= k < |formats| && parse(s, formats[k]) == r &&
                                    forall j :: 0 <= j < k ==> parse(s, formats[j]).None?
    ensures r.None? ==> forall k :: 0 <= k < |formats| ==> parse(s, formats[k]).None?
  {
    if formats == [] then None
    else
      var first := parse(s, formats[0]);
      if first.Some? then first
      else
        var rest := FirstParse(s, formats[1..], parse);
        assert forall k :: 1 <= k < |formats| ==> formats[k] == formats[1..][k - 1];
        rest
  }

  /** `d` comes strictly before `e` on the calendar (the `<` of two midnights). */
  predicate Before(d: Date, e: Date) {
    d.year < e.year || (d.year == e.year && (d.month < e.month || (d.month == e.month && d.day < e.day)))
  }

  /** `strftime("%Y-%m-%d")`. */
  function FormatDate(d: Date): string {
    FormatNat(d.year, 4) + "-" + FormatNat(d.month, 2) + "-" + FormatNat(d.day, 2)
  }

  /** `strftime("%H:%M")`. */
  function FormatTime(t: TimeOfDay): string {
    FormatNat(t.hour, 2) + ":" + FormatNat(t.minute, 2)
  }

  /** What `validate_date` answers: the normalised date, or the message explaining the refusal. */
  function DateCheck(dateStr: string, env: Env): Result<string, string> {
    match FirstParse(Strip(dateStr), DateFormats, env.parseDate)
    case None => Err(DateFormatError)
    case Some(d) => if Before(d, env.today) then Err(PastDateError) else Ok(FormatDate(d))
  }

  /** What `validate_time` answers: the time as HH:MM, or nothing. */
  function TimeCheck(timeStr: string, env: Env): Option<string> {
    match FirstParse(Strip(timeStr), TimeFormats, env.parseTime)
    case None => None
    case Some(t) => Some(FormatTime(t))
  }

  /** `validate_date`: tries each date format in turn and stops at the first that parses. */
  method ValidateDate(dateStr: string, env: Env) returns (r: Result<string, string>)
    ensures r == DateCheck(dateStr, env)
  {
    var trimmed := Strip(dateStr);
    var parsed: Option<Date> := None;
    var k := 0;
    while k < |DateFormats|
      invariant 0 <= k <= |DateFormats|
      invariant parsed.None? ==> FirstParse(trimmed, DateFormats, env.parseDate) == FirstParse(trimmed, DateFormats[k..], env.parseDate)
      invariant parsed.Some? ==> parsed == FirstParse(trimmed, DateFormats, env.parseDate)
    {
      var attempt := env.parseDate(trimmed, DateFormats[k]);
      assert DateFormats[k..][0] == DateFormats[k] && DateFormats[k..][1..] == DateFormats[k + 1..];
      if attempt.Some? {
        parsed := attempt;
        break;
      }
      k := k + 1;
    }
    if parsed.None? {
      return Err(DateFormatError);
    }
    var d := parsed.value;
    if Before(d, env.today) {
      return Err(PastDateError);
    }
    r := Ok(FormatDate(d));
  }

  /** `validate_time`: tries each time format in turn and stops at the first that parses. */
  method ValidateTime(timeStr: string, env: Env) returns (r: Option<string>)
    ensures r == TimeCheck(timeStr, env)
  {
    var trimmed := Strip(timeStr);
    var parsed: Option<TimeOfDay> := None;
    var k := 0;
    while k < |TimeFormats|
      invariant 0 <= k <= |TimeFormats|
      invariant parsed.None? ==> FirstParse(trimmed, TimeFormats, env.parseTime) == FirstParse(trimmed, TimeFormats[k..], env.parseTime)
      invariant parsed.Some? ==> parsed == FirstParse(trimmed, TimeFormats, env.parseTime)
    {
      var attempt := env.parseTime(trimmed, TimeFormats[k]);
      assert TimeFormats[k..][0] == TimeFormats[k] && TimeFormats[k..][1..] == TimeFormats[k + 1..];
      if attempt.Some? {
        parsed := attempt;
        break;
      }
      k := k + 1;
    }
    if parsed.None? {
      return None;
    }
    r := Some(FormatTime(parsed.value));
  }

  /**
   * A date is refused when no format parses it (with the format message) or
   * when it lies before today; today and later dates are accepted and
   * rendered as YYYY-MM-DD, from which the parsed year, month and day read
   * back.
   */
  lemma DateCheckSpec(dateStr: string, env: Env)
    ensures FirstParse(Strip(dateStr), DateFormats, env.parseDate).None? ==> DateCheck(dateStr, env) == Err(DateFormatError)
    ensures forall d :: FirstParse(Strip(dateStr), DateFormats, env.parseDate) == Some(d) ==>
      (DateCheck(dateStr, env).Ok? <==> !Before(d, env.today))
    ensures forall d :: FirstParse(Strip(dateStr), DateFormats, env.parseDate) == Some(d) && d == env.today ==>
      DateCheck(dateStr, env).Ok?
    ensures forall d :: FirstParse(Strip(dateStr), DateFormats, env.parseDate) == Some(d) && d.year < 10000 && d.month < 100 && d.day < 100 && !Before(d, env.today) ==>
      DateCheck(dateStr, env) == Ok(FormatDate(d)) && IsoDateReadsBack(FormatDate(d), d)
  {
    forall d: Date | d.year < 10000 && d.month < 100 && d.day < 100
      ensures IsoDateReadsBack(FormatDate(d), d)
    {
      FormatDateShape(d);
    }
  }

  /** `s` has the shape YYYY-MM-DD and its three fields read back as the date `d`. */
  predicate IsoDateReadsBack(s: string, d: Date) {
    |s| == 10 && s[4] == '-' && s[7] == '-' &&
    ParseNat(s[..4]) == Some(d.year) && ParseNat(s[5..7]) == Some(d.month) && ParseNat(s[8..]) == Some(d.day)
  }

  lemma FormatDateShape(d: Date)
    requires d.year < 10000 && d.month < 100 && d.day < 100
    ensures IsoDateReadsBack(FormatDate(d), d)
  {
    var y, m, dd := FormatNat(d.year, 4), FormatNat(d.month, 2), FormatNat(d.day, 2);
    assert Pow10(4) == 10000 && Pow10(2) == 100 by {
      assert Pow10(1) == 10;
      assert Pow10(3) == 1000;
    }
    FormatNatWidth(d.year, 4);
    FormatNatWidth(d.month, 2);
    FormatNatWidth(d.day, 2);
    FormatNatRoundTrip(d.year, 4);
    FormatNatRoundTrip(d.month, 2);
    FormatNatRoundTrip(d.day, 2);
    var s := FormatDate(d);
    assert s == y + "-" + m + "-" + dd;
    assert s[..4] == y && s[5..7] == m && s[8..] == dd;
  }

  /**
   * A time is refused exactly when no format parses it; otherwise it is the
   * first parse rendered as HH:MM, from which the hour and minute read back.
   */
  lemma TimeCheckSpec(timeStr: string, env: Env)
    ensures TimeCheck(timeStr, env).None? <==> forall k :: 0 <= k < |TimeFormats| ==> env.parseTime(Strip(timeStr), TimeFormats[k]).None?
    ensures forall t :: FirstParse(Strip(timeStr), TimeFormats, env.parseTime) == Some(t) && t.hour < 100 && t.minute < 100 ==>
      TimeCheck(timeStr, env) == Some(FormatTime(t)) && ClockReadsBack(FormatTime(t), t)
  {
    forall t: TimeOfDay | t.hour < 100 && t.minute < 100
      ensures ClockReadsBack(FormatTime(t), t)
    {
      FormatTimeShape(t);
    }
  }

  /** `s` has the shape HH:MM and its two fields read back as the time `t`. */
  predicate ClockReadsBack(s: string, t: TimeOfDay) {
    |s| == 5 && s[2] == ':' && ParseNat(s[..2]) == Some(t.hour) && ParseNat(s[3..]) == Some(t.minute)
  }

  lemma FormatTimeShape(t: TimeOfDay)
    requires t.hour < 100 && t.minute < 100
    ensures ClockReadsBack(FormatTime(t), t)
  {
    var h, m := FormatNat(t.hour, 2), FormatNat(t.minute, 2);
    assert Pow10(2) == 100 by {
      assert Pow10(1) == 10;
    }
    FormatNatWidth(t.hour, 2);
    FormatNatWidth(t.minute, 2);
    FormatNatRoundTrip(t.hour, 2);
    FormatNatRoundTrip(t.minute, 2);
    var s := FormatTime(t);
    assert s == h + ":" + m;
    assert s[..2] == h && s[3..] == m;
  }

  // ---------------------------------------------------------------- extraction

  const DateSeparator := Regex.Repeat(Regex.OneOf({'-', '/'}), 1, Regex.AtMost(1))

  /** `\d{1,2}` */
  const OneOrTwoDigits := Regex.Repeat(Regex.Digit, 1, Regex.AtMost(2))

  /** `\d{1,2}[-/]\d{1,2}[-/]\d{4}` */
  const DayFirstDate: Regex.Pattern := [OneOrTwoDigits, DateSeparator, OneOrTwoDigits, DateSeparator, Regex.Repeat(Regex.Digit, 4, Regex.AtMost(4))]

  /** `\d{4}[-/]\d{1,2}[-/]\d{1,2}` */
  const YearFirstDate: Regex.Pattern := [Regex.Repeat(Regex.Digit, 4, Regex.AtMost(4)), DateSeparator, OneOrTwoDigits, DateSeparator, OneOrTwoDigits]

  /** `\d{1,2}:\d{2}` */
  const ClockTime: Regex.Pattern := [OneOrTwoDigits, Regex.Repeat(Regex.OneOf({':'}), 1, Regex.AtMost(1)), Regex.Repeat(Regex.Digit, 2, Regex.AtMost(2))]

  /** `\d{1,2}\s*(am|pm)` */
  const HourAmPm: Regex.Pattern := [OneOrTwoDigits, Regex.Repeat(Regex.Space, 0, Regex.Many), Regex.Alt(["am", "pm"])]

  /** The first of `patterns` that matches somewhere in `s`, as `match.group()`. */
  function FirstSearch(patterns: seq<Regex.Pattern>, s: string): (r: Option<string>)
    ensures r.Some? ==> exists k :: 0 <= k < |patterns| && Regex.Search(patterns[k], s) == r &&
                                    forall j :: 0 <= j < k ==> Regex.Search(patterns[j], s).None?
    ensures r.None? <==> forall k :: 0 <= k < |patterns| ==> Regex.Search(patterns[k], s).None?
  {
    if patterns == [] then None
    else
      match Regex.Search(patterns[0], s)
      case Some(m) => Some(m)
      case None =>
        var rest := FirstSearch(patterns[1..], s);
        assert forall k :: 1 <= k < |patterns| ==> patterns[k] == patterns[1..][k - 1];
        rest
  }

  /** The message with its spaces and dashes removed, where a phone number is looked for. */
  function PhoneDigitsText(message: string): string {
    RemoveChars(message, {' ', '-'})
  }

  /** `extract_info(message, "phone")`: ten digits in a row once spaces and dashes are removed. */
  function ExtractPhone(message: string): (r: Option<string>)
    ensures r.Some? ==> |r.value| == 10 && AllDigits(r.value)
  {
    var cleaned := PhoneDigitsText(message);
    var found := Regex.Search(Regex.ExactDigits(10), cleaned);
    assert found.Some? ==> |found.value| == 10 && AllDigits(found.value) by {
      if found.Some? { ExtractedPhoneShape(cleaned); }
    }
    found
  }

  /** `extract_info(message, "date")`: the first day-first or year-first date in the message. */
  function ExtractDate(message: string): (r: Option<string>)
    ensures Regex.Search(DayFirstDate, message).Some? ==> r == Regex.Search(DayFirstDate, message)
    ensures Regex.Search(DayFirstDate, message).None? ==> r == Regex.Search(YearFirstDate, message)
  {
    var patterns := [DayFirstDate, YearFirstDate];
    var r := FirstSearch(patterns, message);
    assert patterns[0] == DayFirstDate && patterns[1] == YearFirstDate;
    r
  }

  /** `extract_info(message, "time")`: the first clock time or hour with am/pm in the lowered message. */
  function ExtractTime(message: string): (r: Option<string>)
    ensures Regex.Search(ClockTime, Lower(message)).Some? ==> r == Regex.Search(ClockTime, Lower(message))
    ensures Regex.Search(ClockTime, Lower(message)).None? ==> r == Regex.Search(HourAmPm, Lower(message))
  {
    var patterns := [ClockTime, HourAmPm];
    var r := FirstSearch(patterns, Lower(message));
    assert patterns[0] == ClockTime && patterns[1] == HourAmPm;
    r
  }

  /** `extract_info`: the piece of the message a field's patterns find; other fields find nothing. */
  function ExtractInfo(message: string, field: string): (r: Option<string>)
    ensures field != "phone" && field != "date" && field != "time" ==> r.None?
    ensures field == "phone" && r.Some? ==> |r.value| == 10 && AllDigits(r.value)
  {
    if field == "phone" then ExtractPhone(message)
    else if field == "date" then ExtractDate(message)
    else if field == "time" then ExtractTime(message)
    else None
  }

  lemma ExtractedPhoneShape(cleaned: string)
    requires Regex.Search(Regex.ExactDigits(10), cleaned).Some?
    ensures var p := Regex.Search(Regex.ExactDigits(10), cleaned).value; |p| == 10 && AllDigits(p)
  {
    var r := Regex.SearchFrom(Regex.ExactDigits(10), cleaned, 0);
    var b := r.value.0;
    Regex.ExactDigitsAt(10, cleaned, b);
  }

  /**
   * The phone extracted from a message is the leftmost run of ten digits of
   * the message without its spaces and dashes; there is none exactly when no
   * ten digits stand together.
   */
  lemma ExtractPhoneSpec(message: string)
    ensures var c := PhoneDigitsText(message);
      ExtractPhone(message).None? <==> forall i :: 0 <= i <= |c| ==> !Regex.DigitsAt(c, i, 10)
    ensures var c := PhoneDigitsText(message);
      ExtractPhone(message).Some? ==>
        exists i :: 0 <= i && Regex.DigitsAt(c, i, 10) && ExtractPhone(message).value == c[i..i + 10] &&
                    forall j :: 0 <= j < i ==> !Regex.DigitsAt(c, j, 10)
  {
    var c := PhoneDigitsText(message);
    var p := Regex.ExactDigits(10);
    forall i | 0 <= i <= |c| ensures Regex.MatchAt(p, c, i).Some? <==> Regex.DigitsAt(c, i, 10) {
      Regex.ExactDigitsAt(10, c, i);
    }
    var r := Regex.SearchFrom(p, c, 0);
    if r.Some? {
      var b := r.value.0;
      Regex.ExactDigitsAt(10, c, b);
      assert ExtractPhone(message).value == c[b..b + 10];
    }
  }

  /** An extracted phone always passes `validate_phone`, so the second check never refuses one. */
  lemma ExtractedPhoneValid(message: string)
    requires ExtractPhone(message).Some?
    ensures ValidatePhone(ExtractPhone(message).value)
  {
    var p := ExtractPhone(message).value;
    RemoveNothing(p, {' ', '-'});
  }

  lemma {:induction false} RemoveNothing(s: string, drop: set<char>)
    requires forall i :: 0 <= i < |s| ==> s[i] !in drop
    ensures RemoveChars(s, drop) == s
  {
    if s != [] {
      RemoveNothing(s[1..], drop);
    }
  }

  // ---------------------------------------------------------------- sessions

  /** The details collected for one appointment. */
  datatype BookingData = BookingData(
    doctorId: Option<int>, patientName: string, phone: string, problem: string, date: string, time: string)

  /** One conversation: its state and what it has collected. */
  datatype Session = Session(state: int, data: BookingData)

  /** The outcome of one message: the session after it, the reply, the `is_complete` flag. */
  datatype Turn = Turn(session: Session, response: Reply, isComplete: bool)

  /** The dictionary `process_message` returns. */
  datatype ChatReply = ChatReply(response: string, sessionId: string, appointmentData: BookingData, isComplete: bool)

  function EmptyData(doctorId: Option<int>): BookingData {
    BookingData(doctorId, "", "", "", "", "")
  }

  /** The session a message is applied to: the stored one, or a fresh one in greeting. */
  function SessionFor(sessions: map<string, Session>, sessionId: string, doctorId: Option<int>): Session {
    if sessionId in sessions then sessions[sessionId] else Session(Greeting, EmptyData(doctorId))
  }

  const GreetingWords := ["hi", "hello", "hey", "start", "book"]

  /** The replies `process_message` gives, one per branch. */
  datatype Reply =
    | GreetAccepted | GreetHelp
    | NameAccepted(name: string) | NameRetry
    | PhoneAccepted | PhoneRetry
    | ProblemAccepted | ProblemRetry
    | DateAccepted(date: string) | DateRejected(error: string) | DateRetry
    | ConfirmDetails(details: BookingData) | TimeRetry
    | Confirmed | StartOver | ConfirmRetry
    | AlreadyDone

  /** The text of each reply, as the chatbot sends it. */
  function ReplyText(r: Reply): string {
    match r
    case GreetAccepted => "Hello! I'm your AI assistant. I'll help you book an appointment. What's your name?"
    case GreetHelp => "Hello! I'm here to help you book an appointment. Say 'hi' or 'book appointment' to start."
    case NameAccepted(name) => "Nice to meet you, " + name + "! What's your phone number?"
    case NameRetry => "Please provide your full name."
    case PhoneAccepted => "Thank you! Can you briefly describe your health problem or reason for the appointment?"
    case PhoneRetry => "Please provide a valid 10-digit phone number."
    case ProblemAccepted => "Got it! When would you like to schedule the appointment? Please provide the date (DD-MM-YYYY or YYYY-MM-DD)."
    case ProblemRetry => "Please provide a brief description of your health problem (at least 5 characters)."
    case DateAccepted(date) => "Great! You've selected " + date + ". What time would you prefer? (Please use 24-hour format like 14:30 or 2:30 PM)"
    case DateRejected(error) => error
    case DateRetry => "Please provide a valid date in DD-MM-YYYY or YYYY-MM-DD format."
    case ConfirmDetails(d) =>
      "Perfect! Let me confirm your details:\n\n" +
      "Name: " + d.patientName + "\n" +
      "Phone: " + d.phone + "\n" +
      "Problem: " + d.problem + "\n" +
      "Date: " + d.date + "\n" +
      "Time: " + d.time + "\n\n" +
      "Type 'yes' to confirm or 'no' to start over."
    case TimeRetry => "Please provide a valid time (e.g., 14:30 or 2:30 PM)."
    case Confirmed => "Excellent! Your appointment details have been collected. The system will now check availability and confirm your booking."
    case StartOver => "No problem! Let's start over. What's your name?"
    case ConfirmRetry => "Please type 'yes' to confirm or 'no' to start over."
    case AlreadyDone => "Your appointment has been processed. Is there anything else I can help you with?"
  }

  /** `x if x else fallback` for an optional string. */
  function OrElse(x: Option<string>, fallback: string): string {
    if x.Some? && x.value != "" then x.value else fallback
  }

  /** The doctor kept on a restart: `data.get("doctor_id") or doctor_id` (0 counts as missing). */
  function KeptDoctor(current: Option<int>, given: Option<int>): Option<int> {
    if current.Some? && current.value != 0 then current else given
  }

  predicate SaysYes(lower: string) {
    Contains(lower, "yes") || Contains(lower, "confirm")
  }

  predicate SaysNo(lower: string) {
    Contains(lower, "no") || Contains(lower, "cancel")
  }

  /** greeting: a greeting word (anywhere in the lowered, stripped message) starts the booking. */
  function GreetingTurn(s: Session, message: string): Turn
    requires s.state == Greeting
  {
    var lower := Strip(Lower(message));
    if ContainsAny(lower, GreetingWords) then Turn(s.(state := AskName), GreetAccepted, false)
    else Turn(s, GreetHelp, false)
  }

  /** ask_name: the stripped message is the name when it has at least 2 characters. */
  function NameTurn(s: Session, message: string): Turn
    requires s.state == AskName
  {
    var name := Strip(message);
    if |name| >= 2 then Turn(Session(AskPhone, s.data.(patientName := name)), NameAccepted(name), false)
    else Turn(s, NameRetry, false)
  }

  /** ask_phone: the extracted ten digits, when there are any and they pass `validate_phone`. */
  function PhoneTurn(s: Session, message: string): Turn
    requires s.state == AskPhone
  {
    var phone := ExtractPhone(message);
    if phone.Some? && phone.value != "" && ValidatePhone(phone.value) then
      Turn(Session(AskProblem, s.data.(phone := phone.value)), PhoneAccepted, false)
    else Turn(s, PhoneRetry, false)
  }

  /** ask_problem: the stripped message when it has at least 5 characters. */
  function ProblemTurn(s: Session, message: string): Turn
    requires s.state == AskProblem
  {
    var problem := Strip(message);
    if |problem| >= 5 then Turn(Session(AskDate, s.data.(problem := problem)), ProblemAccepted, false)
    else Turn(s, ProblemRetry, false)
  }

  /** ask_date: the extracted date (or the whole message) once `validate_date` accepts it. */
  function DateTurn(s: Session, message: string, env: Env): Turn
    requires s.state == AskDate
  {
    match DateCheck(OrElse(ExtractDate(message), Strip(message)), env)
    case Ok(date) => Turn(Session(AskTime, s.data.(date := date)), DateAccepted(date), false)
    case Err(msg) => Turn(s, if msg != "" then DateRejected(msg) else DateRetry, false)
  }

  /** ask_time: the extracted time (or the whole message) once `validate_time` accepts it. */
  function TimeTurn(s: Session, message: string, env: Env): Turn
    requires s.state == AskTime
  {
    match TimeCheck(OrElse(ExtractTime(message), Strip(message)), env)
    case Some(time) => Turn(Session(Confirm, s.data.(time := time)), ConfirmDetails(s.data.(time := time)), false)
    case None => Turn(s, TimeRetry, false)
  }

  /** confirm: "yes"/"confirm" completes, otherwise "no"/"cancel" starts over keeping the doctor. */
  function ConfirmTurn(s: Session, message: string, doctorId: Option<int>): Turn
    requires s.state == Confirm
  {
    var lower := Strip(Lower(message));
    if SaysYes(lower) then Turn(s.(state := Complete), Confirmed, true)
    else if SaysNo(lower) then Turn(Session(Greeting, EmptyData(KeptDoctor(s.data.doctorId, doctorId))), StartOver, false)
    else Turn(s, ConfirmRetry, false)
  }

  /**
   * What one message does to a session, state by state, as `process_message`
   * decides it; `Step` computes it statement by statement.
   */
  function Respond(s: Session, message: string, doctorId: Option<int>, env: Env): Turn {
    match s.state
    case 6 => ConfirmTurn(s, message, doctorId)    // confirm
    case 0 => GreetingTurn(s, message)             // greeting
    case 1 => NameTurn(s, message)                 // ask_name
    case 2 => PhoneTurn(s, message)                // ask_phone
    case 3 => ProblemTurn(s, message)              // ask_problem
    case 4 => DateTurn(s, message, env)            // ask_date
    case 5 => TimeTurn(s, message, env)            // ask_time
    case _ => Turn(s, AlreadyDone, true)           // complete, or any other number
  }

  /**
   * The invariant of every stored session: its state is one of the eight, and
   * a field is filled exactly when the conversation has passed the state that
   * asks for it. Name, phone and problem also keep the shape their checks
   * demand; of date and time the invariant knows only that they are filled
   * (`CollectedValues` says which value each step stores).
   */
  predicate WellFormed(s: Session) {
    var d := s.data;
    Greeting <= s.state <= Complete &&
    (d.patientName != "" <==> s.state > AskName) &&
    (s.state > AskName ==> Stripped(d.patientName) && |d.patientName| >= 2) &&
    (d.phone != "" <==> s.state > AskPhone) &&
    (s.state > AskPhone ==> AllDigits(d.phone) && |d.phone| == 10) &&
    (d.problem != "" <==> s.state > AskProblem) &&
    (s.state > AskProblem ==> Stripped(d.problem) && |d.problem| >= 5) &&
    (d.date != "" <==> s.state > AskDate) &&
    (d.time != "" <==> s.state > AskTime)
  }

  /** Every message keeps a session well formed. */
  lemma RespondKeepsWellFormed(s: Session, message: string, doctorId: Option<int>, env: Env)
    requires WellFormed(s)
    ensures WellFormed(Respond(s, message, doctorId, env).session)
  {
    var t := Respond(s, message, doctorId, env);
    if s.state == Greeting {
      assert t == GreetingTurn(s, message);
      GreetingTurnWellFormed(s, message);
    } else if s.state == AskName {
      assert t == NameTurn(s, message);
      NameTurnWellFormed(s, message);
    } else if s.state == AskPhone {
      assert t == PhoneTurn(s, message);
      PhoneTurnWellFormed(s, message);
    } else if s.state == AskProblem {
      assert t == ProblemTurn(s, message);
      ProblemTurnWellFormed(s, message);
    } else if s.state == AskDate {
      assert t == DateTurn(s, message, env);
      DateTurnWellFormed(s, message, env);
    } else if s.state == AskTime {
      assert t == TimeTurn(s, message, env);
      TimeTurnWellFormed(s, message, env);
    } else if s.state == Confirm {
      assert t == ConfirmTurn(s, message, doctorId);
      ConfirmTurnWellFormed(s, message, doctorId);
    }
  }

  lemma GreetingTurnWellFormed(s: Session, message: string)
    requires WellFormed(s) && s.state == Greeting
    ensures WellFormed(GreetingTurn(s, message).session)
  {
  }

  lemma NameTurnWellFormed(s: Session, message: string)
    requires WellFormed(s) && s.state == AskName
    ensures WellFormed(NameTurn(s, message).session)
  {
  }

  lemma ProblemTurnWellFormed(s: Session, message: string)
    requires WellFormed(s) && s.state == AskProblem
    ensures WellFormed(ProblemTurn(s, message).session)
  {
  }

  lemma ConfirmTurnWellFormed(s: Session, message: string, doctorId: Option<int>)
    requires WellFormed(s) && s.state == Confirm
    ensures WellFormed(ConfirmTurn(s, message, doctorId).session)
  {
  }

  lemma PhoneTurnWellFormed(s: Session, message: string)
    requires WellFormed(s) && s.state == AskPhone
    ensures WellFormed(PhoneTurn(s, message).session)
  {
    var phone := ExtractPhone(message);
    if phone.Some? && phone.value != "" && ValidatePhone(phone.value) {
      assert |phone.value| == 10 && AllDigits(phone.value);
    }
  }

  lemma DateTurnWellFormed(s: Session, message: string, env: Env)
    requires WellFormed(s) && s.state == AskDate
    ensures WellFormed(DateTurn(s, message, env).session)
  {
  }

  lemma TimeTurnWellFormed(s: Session, message: string, env: Env)
    requires WellFormed(s) && s.state == AskTime
    ensures WellFormed(TimeTurn(s, message, env).session)
  {
  }

  /** A new session starts in greeting with nothing collected and the doctor it was opened for. */
  lemma NewSessionStart(sessions: map<string, Session>, sessionId: string, doctorId: Option<int>)
    requires sessionId !in sessions
    ensures SessionFor(sessions, sessionId, doctorId).state == Greeting
    ensures SessionFor(sessions, sessionId, doctorId).data == BookingData(doctorId, "", "", "", "", "")
    ensures WellFormed(SessionFor(sessions, sessionId, doctorId))
  {
  }

  /** In greeting, a message moves on to ask_name exactly when it contains a greeting word, and nothing else changes. */
  lemma GreetingStep(s: Session, message: string, doctorId: Option<int>, env: Env)
    requires s.state == Greeting
    ensures var t := Respond(s, message, doctorId, env);
      t.session == (if exists k :: 0 <= k < |GreetingWords| && Contains(Strip(Lower(message)), GreetingWords[k])
                    then Session(AskName, s.data) else s) &&
      !t.isComplete
  {
  }

  /** The message a data-collecting state accepts, as that state checks it. */
  predicate Accepts(s: Session, message: string, env: Env) {
    if s.state == AskName then |Strip(message)| >= 2
    else if s.state == AskPhone then ExtractPhone(message).Some?
    else if s.state == AskProblem then |Strip(message)| >= 5
    else if s.state == AskDate then DateCheck(OrElse(ExtractDate(message), Strip(message)), env).Ok?
    else if s.state == AskTime then TimeCheck(OrElse(ExtractTime(message), Strip(message)), env).Some?
    else false
  }

  /**
   * In ask_name .. ask_time an accepted message moves exactly one state on and
   * fills only the field that state asks for; any other message leaves the
   * session exactly as it was. The flag stays false.
   */
  lemma CollectingStep(s: Session, message: string, doctorId: Option<int>, env: Env)
    requires AskName <= s.state <= AskTime
    ensures var t := Respond(s, message, doctorId, env);
      !t.isComplete &&
      (Accepts(s, message, env) ==> t.session.state == GetNextState(s.state) && OnlyFieldChanged(s.state, s.data, t.session.data)) &&
      (!Accepts(s, message, env) ==> t.session == s)
  {
    if s.state == AskPhone && ExtractPhone(message).Some? {
      ExtractedPhoneValid(message);
    }
  }

  /**
   * The value an accepted message stores: the stripped name, the extracted
   * phone, the stripped problem, and the date and time exactly as
   * `validate_date` and `validate_time` return them.
   */
  lemma CollectedValues(s: Session, message: string, doctorId: Option<int>, env: Env)
    requires AskName <= s.state <= AskTime && Accepts(s, message, env)
    ensures s.state == AskName ==> Respond(s, message, doctorId, env).session.data.patientName == Strip(message)
    ensures s.state == AskPhone ==> Respond(s, message, doctorId, env).session.data.phone == ExtractPhone(message).value
    ensures s.state == AskProblem ==> Respond(s, message, doctorId, env).session.data.problem == Strip(message)
    ensures s.state == AskDate ==>
      Respond(s, message, doctorId, env).session.data.date == DateCheck(OrElse(ExtractDate(message), Strip(message)), env).value
    ensures s.state == AskTime ==>
      Respond(s, message, doctorId, env).session.data.time == TimeCheck(OrElse(ExtractTime(message), Strip(message)), env).value
  {
    var t := Respond(s, message, doctorId, env);
    if s.state == AskName {
      assert t == NameTurn(s, message);
    } else if s.state == AskPhone {
      ExtractedPhoneValid(message);
      assert t == PhoneTurn(s, message);
    } else if s.state == AskProblem {
      assert t == ProblemTurn(s, message);
    } else if s.state == AskDate {
      assert t == DateTurn(s, message, env);
    } else {
      assert t == TimeTurn(s, message, env);
    }
  }

  /** `after` equals `before` except possibly in the one field that state `state` collects. */
  predicate OnlyFieldChanged(state: int, before: BookingData, after: BookingData) {
    if state == AskName then after == before.(patientName := after.patientName)
    else if state == AskPhone then after == before.(phone := after.phone)
    else if state == AskProblem then after == before.(problem := after.problem)
    else if state == AskDate then after == before.(date := after.date)
    else if state == AskTime then after == before.(time := after.time)
    else after == before
  }

  /**
   * At the confirmation, "yes"/"confirm" is looked for first and completes the
   * session; otherwise "no"/"cancel" starts over in greeting with every field
   * emptied except the doctor; anything else changes nothing.
   */
  lemma ConfirmStep(s: Session, message: string, doctorId: Option<int>, env: Env)
    requires s.state == Confirm
    ensures var t := Respond(s, message, doctorId, env); var lower := Strip(Lower(message));
      (SaysYes(lower) ==> t.session == Session(Complete, s.data) && t.isComplete) &&
      (!SaysYes(lower) && SaysNo(lower) ==>
        t.session == Session(Greeting, EmptyData(KeptDoctor(s.data.doctorId, doctorId))) && !t.isComplete) &&
      (!SaysYes(lower) && !SaysNo(lower) ==> t.session == s && !t.isComplete)
  {
    RespondInConfirm(s, message, doctorId, env);
  }

  lemma RespondInConfirm(s: Session, message: string, doctorId: Option<int>, env: Env)
    requires s.state == Confirm
    ensures Respond(s, message, doctorId, env) == ConfirmTurn(s, message, doctorId)
  {
  }

  /**
   * The reply is marked complete exactly for a "yes" at the confirmation and
   * in the complete state, and a complete session never changes again.
   */
  lemma CompletionFlag(s: Session, message: string, doctorId: Option<int>, env: Env)
    requires WellFormed(s)
    ensures var t := Respond(s, message, doctorId, env);
      t.isComplete <==> (s.state == Confirm && SaysYes(Strip(Lower(message)))) || s.state == Complete
    ensures s.state == Complete ==> Respond(s, message, doctorId, env).session == s
  {
    if s.state == Greeting {
      GreetingStep(s, message, doctorId, env);
    } else if s.state <= AskTime {
      CollectingStep(s, message, doctorId, env);
    } else if s.state == Confirm {
      ConfirmStep(s, message, doctorId, env);
    }
  }

  /**
   * A message moves a session at most one state on; it goes back only from the
   * confirmation, and then to the greeting; a completed session stays put.
   */
  lemma RespondMoves(s: Session, message: string, doctorId: Option<int>, env: Env)
    ensures var t := Respond(s, message, doctorId, env);
      (t.session.state == s.state || t.session.state == GetNextState(s.state) || (s.state == Confirm && t.session.state == Greeting)) &&
      (t.session.state != s.state ==> Greeting <= s.state <= Confirm)
  {
  }


  /**
   * The body of `process_message` once the session is looked up, statement by
   * statement: the branch of the session's state decides the next session,
   * the reply and the flag. `AppointmentChatbot.ProcessMessage` runs this
   * method; `Respond` is its specification, the one the lemmas above reason
   * about.
   */
  method Step(session: Session, message: string, doctorId: Option<int>, env: Env)
    returns (next: Session, response: Reply, isComplete: bool)
    ensures Turn(next, response, isComplete) == Respond(session, message, doctorId, env)
  {
    var currentState := session.state;
    var data := session.data;
    var messageLower := Strip(Lower(message));
    next := session;
    isComplete := false;
    if currentState == Greeting {
      if ContainsAny(messageLower, GreetingWords) {
        next := session.(state := AskName);
        response := GreetAccepted;
      } else {
        response := GreetHelp;
      }
    } else if currentState == AskName {
      if |Strip(message)| >= 2 {
        data := data.(patientName := Strip(message));
        next := Session(AskPhone, data);
        response := NameAccepted(data.patientName);
      } else {
        response := NameRetry;
      }
    } else if currentState == AskPhone {
      var extractedPhone := ExtractPhone(message);
      if extractedPhone.Some? && extractedPhone.value != "" && ValidatePhone(extractedPhone.value) {
        data := data.(phone := extractedPhone.value);
        next := Session(AskProblem, data);
        response := PhoneAccepted;
      } else {
        response := PhoneRetry;
      }
    } else if currentState == AskProblem {
      if |Strip(message)| >= 5 {
        data := data.(problem := Strip(message));
        next := Session(AskDate, data);
        response := ProblemAccepted;
      } else {
        response := ProblemRetry;
      }
    } else if currentState == AskDate {
      var extractedDate := ExtractDate(message);
      var dateToValidate := OrElse(extractedDate, Strip(message));
      var result := ValidateDate(dateToValidate, env);
      if result.Ok? {
        data := data.(date := result.value);
        next := Session(AskTime, data);
        response := DateAccepted(data.date);
      } else {
        response := if result.error != "" then DateRejected(result.error) else DateRetry;
      }
    } else if currentState == AskTime {
      var extractedTime := ExtractTime(message);
      var timeToValidate := OrElse(extractedTime, Strip(message));
      var result := ValidateTime(timeToValidate, env);
      if result.Some? {
        data := data.(time := result.value);
        next := Session(Confirm, data);
        response := ConfirmDetails(data);
      } else {
        response := TimeRetry;
      }
    } else if currentState == Confirm {
      if SaysYes(messageLower) {
        next := session.(state := Complete);
        response := Confirmed;
        isComplete := true;
      } else if SaysNo(messageLower) {
        var currentDoctorId := KeptDoctor(data.doctorId, doctorId);
        next := Session(Greeting, EmptyData(currentDoctorId));
        response := StartOver;
      } else {
        response := ConfirmRetry;
      }
    } else {
      response := AlreadyDone;
      isComplete := true;
    }
  }

  lemma StoreKeepsWellFormed(m: map<string, Session>, id: string, s: Session, updated: map<string, Session>)
    requires forall k :: k in m ==> WellFormed(m[k])
    requires WellFormed(s) && updated == m[id := s]
    ensures forall k :: k in updated ==> WellFormed(updated[k])
  {
  }

  /** Writing a key of a map that differs from `m` at most at that key gives `m` with the key written. */
  lemma OverwriteEntry<K, V>(m: map<K, V>, m': map<K, V>, k: K, v: V)
    requires forall j :: j in m' <==> j in m || j == k
    requires forall j :: j in m && j != k ==> m'[j] == m[j]
    ensures m'[k := v] == m[k := v]
  {
  }

  /** The chatbot with its session store. */
  class AppointmentChatbot {
    var sessions: map<string, Session>

    ghost predicate Valid()
      reads this
    {
      forall id :: id in sessions ==> WellFormed(sessions[id])
    }

    constructor ()
      ensures Valid() && sessions == map[]
    {
      sessions := map[];
    }

    /**
     * `process_message`: opens the session if it is new, applies the message
     * to it and returns the reply with the session's data.
     */
    method ProcessMessage(message: string, sessionId: string, doctorId: Option<int>, env: Env) returns (reply: ChatReply)
      requires Valid()
      modifies this
      ensures Valid()
      ensures var t := Respond(SessionFor(old(sessions), sessionId, doctorId), message, doctorId, env);
        sessions == old(sessions)[sessionId := t.session] &&
        reply == ChatReply(ReplyText(t.response), sessionId, t.session.data, t.isComplete)
    {
      ghost var before := sessions;
      if sessionId !in sessions {
        sessions := sessions[sessionId := Session(Greeting, EmptyData(doctorId))];
      }
      var session := sessions[sessionId];
      assert session == SessionFor(before, sessionId, doctorId);
      RespondKeepsWellFormed(session, message, doctorId, env);
      var next, response, isComplete := Step(session, message, doctorId, env);
      StoreKeepsWellFormed(before, sessionId, next, before[sessionId := next]);
      OverwriteEntry(before, sessions, sessionId, next);
      sessions := sessions[sessionId := next];
      reply := ChatReply(ReplyText(response), sessionId, next.data, isComplete);
    }

    /** `clear_session`: forgets the session; an unknown id changes nothing. */
    method ClearSession(sessionId: string)
      requires Valid()
      modifies this
      ensures Valid()
      ensures sessions == old(sessions) - {sessionId}
      ensures sessionId !in old(sessions) ==> sessions == old(sessions)
    {
      if sessionId in sessions {
        sessions := sessions - {sessionId};
      }
    }
  }
}

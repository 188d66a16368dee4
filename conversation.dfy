/**
 * The keyword-driven conversation manager of the voice-call server
 * (AI_tool_dev/conversation_flow.py). From GREETING, appointment keywords
 * lead to APPOINTMENT_BOOKING, where a date keyword, a spoken time and a
 * name are picked out of the caller's words, each at most once, until all
 * three are known and the call moves to CLOSING. Information keywords lead
 * to INFORMATION_GATHERING, whose handler the dispatcher names but the class
 * never defines, so every later input there fails.
 */
module Conversation {
  import opened Wrappers
  import opened Text
  import Regex

  datatype ConversationState =
    Greeting | Listening | Understanding | Responding | AppointmentBooking | InformationGathering | Closing

  /** `ConversationState.value`. */
  function StateValue(s: ConversationState): string {
    match s
    case Greeting => "greeting"
    case Listening => "listening"
    case Understanding => "understanding"
    case Responding => "responding"
    case AppointmentBooking => "appointment_booking"
    case InformationGathering => "information_gathering"
    case Closing => "closing"
  }

  /** The five entries of `appointment_info`. */
  datatype AppointmentInfo = AppointmentInfo(
    date: Option<string>, time: Option<string>, name: Option<string>, phone: Option<string>, reason: Option<string>)

  const EmptyInfo := AppointmentInfo(None, None, None, None, None)

  /** The exception a dispatch to a method the class lacks raises (`AttributeError`). */
  datatype Failure = MissingHandler(name: string)

  /** `get_transcript_summary`. */
  datatype Summary = Summary(state: string, appointmentInfo: AppointmentInfo, context: map<string, string>)

  /** `not x`: the entry is unset or empty. */
  predicate Missing(x: Option<string>) {
    x.None? || x.value == ""
  }

  const GreetingText := "Hello! Thank you for calling. I'm your AI receptionist. How can I help you today?"

  const AppointmentKeywords := ["appointment", "book", "schedule", "meeting", "reservation"]
  const InfoKeywords := ["hours", "open", "closed", "location", "address", "contact"]
  const DateKeywords := ["tomorrow", "today", "monday", "tuesday", "wednesday", "thursday", "friday", "saturday", "sunday"]
  const NamePatterns := ["my name is", "i'm", "i am", "call me"]

  const BookingStarted := "I'd be happy to help you book an appointment. What date and time would work for you?"
  const OfferHelp := "I can help you with booking appointments or answering questions. What would you like to do?"
  const AskName := "Great! I have the date and time. May I have your name, please?"
  const AskDate := "What date would you like to schedule the appointment?"
  const AskTime := "What time would work best for you?"
  const StillGathering := "I'm still gathering information. Could you please provide the date and time for your appointment?"
  const HoursReply := "Our office hours are Monday through Friday, 9 AM to 5 PM. We're closed on weekends."
  const LocationReply := "We're located at 123 Main Street, City, State, 12345. Would you like directions?"
  const ContactReply := "You can reach us at 555-1234 during business hours, or email us at info@example.com."
  const SpecificReply := "Is there anything specific you'd like to know about our services?"
  const WelcomeReply := "You're welcome! Have a great day!"
  const GoodbyeReply := "Thank you for calling. Have a wonderful day!"
  const HelpReply := "I'm here to help. Would you like to book an appointment or get information about our services?"

  function BookedReply(name: string, date: string, time: string): string {
    "Perfect! I've booked an appointment for " + name + " on " + date + " at " + time + ". Is there anything else I can help you with?"
  }

  // ---------------------------------------------------------------- the pieces picked out of the text

  /** The first of `words`, in the order listed, that occurs in `text`. */
  function FirstContained(text: string, words: seq<string>): (r: Option<string>)
    ensures r.Some? ==> exists k :: 0 <= k < |words| && words[k] == r.value && Contains(text, words[k]) &&
                                    forall j :: 0 <= j < k ==> !Contains(text, words[j])
    ensures r.None? <==> forall k :: 0 <= k < |words| ==> !Contains(text, words[k])
  {
    if words == [] then None
    else if Contains(text, words[0]) then Some(words[0])
    else
      var r := FirstContained(text, words[1..]);
      assert forall k :: 1 <= k < |words| ==> words[k] == words[1..][k - 1];
      r
  }

  /** The leftmost digit at or after `i`. */
  function FirstDigit(s: string, i: nat): (r: Option<nat>)
    requires i <= |s|
    ensures r.Some? ==> i <= r.value < |s| && IsDigit(s[r.value])
    ensures r.Some? ==> forall j :: i <= j < r.value ==> !IsDigit(s[j])
    ensures r.None? ==> forall j :: i <= j < |s| ==> !IsDigit(s[j])
    decreases |s| - i
  {
    if i == |s| then None
    else if IsDigit(s[i]) then Some(i)
    else FirstDigit(s, i + 1)
  }

  /** Where the run of whitespace starting at `i` ends (`\s*`). */
  function SpacesEnd(s: string, i: nat): (j: nat)
    requires i <= |s|
    ensures i <= j <= |s|
  {
    i + Regex.Run(Regex.Space, s, i)
  }

  /** The three groups of a match of `(\d{1,2})\s*(?::(\d{2}))?\s*(am|pm)?`. */
  datatype TimeGroups = TimeGroups(hour: string, minute: Option<string>, period: Option<string>)

  /** `(\d{1,2})` at a digit: one digit, or two when the next one is a digit too. */
  function HourAt(s: string, i: nat): (hour: string)
    requires i < |s| && IsDigit(s[i])
    ensures AllDigits(hour) && 1 <= |hour| <= 2 && i + |hour| <= |s| && hour == s[i..i + |hour|]
  {
    if i + 1 < |s| && IsDigit(s[i + 1]) then s[i..i + 2] else s[i..i + 1]
  }

  /** `(?::(\d{2}))?` at `j`: the two digits after a colon, if they are there. */
  function MinuteAt(s: string, j: nat): (minute: Option<string>)
    requires j <= |s|
    ensures minute.Some? ==> j + 3 <= |s| && s[j] == ':' && AllDigits(minute.value) && |minute.value| == 2 &&
                             minute.value == s[j + 1..j + 3]
  {
    if j + 3 <= |s| && s[j] == ':' && IsDigit(s[j + 1]) && IsDigit(s[j + 2]) then Some(s[j + 1..j + 3]) else None
  }

  /** `(am|pm)?` at `l`. */
  function PeriodAt(s: string, l: nat): (period: Option<string>)
    ensures period.Some? ==> (period.value == "am" || period.value == "pm") && OccursAt(s, period.value, l)
  {
    if OccursAt(s, "am", l) then Some("am") else if OccursAt(s, "pm", l) then Some("pm") else None
  }

  /**
   * `re.search` of the spoken-time pattern: it matches at the first digit,
   * takes a second digit if there is one, then spaces, then `:dd` if present,
   * then spaces, then `am` or `pm` if present (`TimeMatchSpec` states which
   * characters each group takes).
   */
  function TimeMatch(s: string): (r: Option<TimeGroups>)
    ensures r.Some? <==> exists i :: 0 <= i < |s| && IsDigit(s[i])
    ensures r.Some? ==> AllDigits(r.value.hour) && 1 <= |r.value.hour| <= 2
    ensures r.Some? && r.value.minute.Some? ==> AllDigits(r.value.minute.value) && |r.value.minute.value| == 2
    ensures r.Some? && r.value.period.Some? ==> r.value.period.value == "am" || r.value.period.value == "pm"
  {
    match FirstDigit(s, 0)
    case None => None
    case Some(i) => Some(GroupsAt(s, i))
  }

  /** The groups of the match that starts at the digit at `i`. */
  function GroupsAt(s: string, i: nat): (g: TimeGroups)
    requires i < |s| && IsDigit(s[i])
    ensures AllDigits(g.hour) && 1 <= |g.hour| <= 2
    ensures g.minute.Some? ==> AllDigits(g.minute.value) && |g.minute.value| == 2
    ensures g.period.Some? ==> g.period.value == "am" || g.period.value == "pm"
  {
    var hour := HourAt(s, i);
    var j := SpacesEnd(s, i + |hour|);
    var minute := MinuteAt(s, j);
    var l := SpacesEnd(s, if minute.Some? then j + 3 else j);
    TimeGroups(hour, minute, PeriodAt(s, l))
  }

  /** `b` ends the run of whitespace that starts at `a` (`\s*` taken greedily). */
  predicate SpaceRunEnd(s: string, a: nat, b: nat) {
    a <= b <= |s| && (forall k :: a <= k < b ==> IsSpace(s[k])) && (b < |s| ==> !IsSpace(s[b]))
  }

  /** `SpacesEnd` stops where the run of whitespace ends. */
  lemma SpacesEndIs(s: string, a: nat, b: nat)
    requires SpaceRunEnd(s, a, b)
    ensures SpacesEnd(s, a) == b
  {
  }

  /**
   * The match `re.search` finds is the leftmost and greedy one. With `i` the
   * first digit of the text, `j` the end of the whitespace after the hour and
   * `l` the end of the whitespace after the minute (or `j` without one):
   * the hour is the digit at `i` and the next one when that is a digit too;
   * the minute is the two digits after a colon at `j`, present iff they are
   * there; the period is "am" or "pm" at `l`, tried in that order.
   */
  lemma TimeMatchSpec(s: string, i: nat, j: nat, l: nat)
    requires i < |s| && IsDigit(s[i]) && forall k :: 0 <= k < i ==> !IsDigit(s[k])
    requires SpaceRunEnd(s, if i + 1 < |s| && IsDigit(s[i + 1]) then i + 2 else i + 1, j)
    requires SpaceRunEnd(s, if j + 3 <= |s| && s[j] == ':' && IsDigit(s[j + 1]) && IsDigit(s[j + 2]) then j + 3 else j, l)
    ensures TimeMatch(s).Some?
    ensures TimeMatch(s).value.hour == s[i..if i + 1 < |s| && IsDigit(s[i + 1]) then i + 2 else i + 1]
    ensures TimeMatch(s).value.minute.Some? <==> j + 3 <= |s| && s[j] == ':' && IsDigit(s[j + 1]) && IsDigit(s[j + 2])
    ensures TimeMatch(s).value.minute.Some? ==> TimeMatch(s).value.minute.value == s[j + 1..j + 3]
    ensures TimeMatch(s).value.period == Some("am") <==> OccursAt(s, "am", l)
    ensures TimeMatch(s).value.period == Some("pm") <==> !OccursAt(s, "am", l) && OccursAt(s, "pm", l)
    ensures TimeMatch(s).value.period.None? <==> !OccursAt(s, "am", l) && !OccursAt(s, "pm", l)
  {
    PiecesAt(s, i, j, l);
    assert SpacesEnd(s, i + |HourAt(s, i)|) == j by {
      SpacesEndIs(s, i + |HourAt(s, i)|, j);
    }
    assert SpacesEnd(s, if MinuteAt(s, j).Some? then j + 3 else j) == l by {
      SpacesEndIs(s, if MinuteAt(s, j).Some? then j + 3 else j, l);
    }
    GroupsAtEnds(s, i, j, l);
    FirstDigitIs(s, i);
    assert TimeMatch(s) == Some(GroupsAt(s, i));
  }

  /** What `HourAt`, `MinuteAt` and `PeriodAt` find, character by character. */
  lemma PiecesAt(s: string, i: nat, j: nat, l: nat)
    requires i < |s| && IsDigit(s[i]) && j <= |s|
    ensures HourAt(s, i) == s[i..if i + 1 < |s| && IsDigit(s[i + 1]) then i + 2 else i + 1]
    ensures MinuteAt(s, j).Some? <==> j + 3 <= |s| && s[j] == ':' && IsDigit(s[j + 1]) && IsDigit(s[j + 2])
    ensures MinuteAt(s, j).Some? ==> MinuteAt(s, j).value == s[j + 1..j + 3]
    ensures PeriodAt(s, l) == Some("am") <==> OccursAt(s, "am", l)
    ensures PeriodAt(s, l) == Some("pm") <==> !OccursAt(s, "am", l) && OccursAt(s, "pm", l)
    ensures PeriodAt(s, l).None? <==> !OccursAt(s, "am", l) && !OccursAt(s, "pm", l)
  {
  }

  /** With the ends of the two whitespace runs known, the groups are the pieces found there. */
  lemma GroupsAtEnds(s: string, i: nat, j: nat, l: nat)
    requires i < |s| && IsDigit(s[i])
    requires SpacesEnd(s, i + |HourAt(s, i)|) == j
    requires SpacesEnd(s, if MinuteAt(s, j).Some? then j + 3 else j) == l
    ensures GroupsAt(s, i) == TimeGroups(HourAt(s, i), MinuteAt(s, j), PeriodAt(s, l))
  {
  }

  /** `FirstDigit` finds the digit that no other digit precedes. */
  lemma FirstDigitIs(s: string, i: nat)
    requires i < |s| && IsDigit(s[i]) && forall k :: 0 <= k < i ==> !IsDigit(s[k])
    ensures FirstDigit(s, 0) == Some(i)
  {
  }

  /** `f"{hour}:{minute} {period}".strip()` with a missing minute read as "00" and a missing period as "". */
  function TimeString(g: TimeGroups): string {
    Strip(g.hour + ":" + (if g.minute.Some? then g.minute.value else "00") + " " + (if g.period.Some? then g.period.value else ""))
  }

  /** The stored time is hour:minute, followed by " am" or " pm" only when the caller said so. */
  lemma TimeStringShape(g: TimeGroups)
    requires AllDigits(g.hour) && (g.minute.Some? ==> AllDigits(g.minute.value))
    requires g.period.Some? ==> g.period.value == "am" || g.period.value == "pm"
    ensures TimeString(g) == g.hour + ":" + (if g.minute.Some? then g.minute.value else "00") +
                             (if g.period.Some? then " " + g.period.value else "")
  {
    var hm := g.hour + ":" + (if g.minute.Some? then g.minute.value else "00");
    assert hm[0] == g.hour[0];
    if g.period.Some? {
      var full := hm + " " + g.period.value;
      assert full[|full| - 1] == 'm';
      assert full[0] == hm[0];
      assert hm + " " + g.period.value == hm + (" " + g.period.value);
      StripStripped(full);
    } else {
      assert hm[|hm| - 1] != ' ' by {
        if g.minute.Some? {
          assert hm[|hm| - 1] == g.minute.value[|g.minute.value| - 1];
        } else {
          assert hm[|hm| - 1] == '0';
        }
      }
      assert hm + " " + "" == hm + " ";
      StripTrailingSpace(hm);
    }
  }

  /** What `text.split(pattern)[1].split()[0]` names, when the pattern occurs and a word follows it. */
  function NameAfter(text: string, pattern: string): (r: Option<string>)
    ensures r.Some? ==> IsWord(r.value) && Contains(text, pattern)
  {
    match Find(text, pattern, 0)
    case None => None
    case Some(i) =>
      ContainsFind(text, pattern);
      NameAt(text, pattern, i)
  }

  /** The name after the occurrence of the pattern at `i`. */
  function NameAt(text: string, pattern: string, i: nat): (r: Option<string>)
    requires i + |pattern| <= |text|
    ensures r.Some? ==> IsWord(r.value)
  {
    FirstWord(UpToNext(text[i + |pattern|..], pattern))
  }

  /** `after.split(pattern)[0]`: the text before the next occurrence of the pattern. */
  function UpToNext(after: string, pattern: string): string {
    match Find(after, pattern, 0) case Some(j) => after[..j] case None => after
  }

  /** The first word of `part`, when it holds one: the run of non-whitespace after its leading whitespace. */
  function FirstWord(part: string): (r: Option<string>)
    ensures r.Some? ==> IsWord(r.value)
  {
    var t := TrimStart(part);
    if t == [] then None else Some(t[..WordEnd(t)])
  }

  /** `FirstWord` is `part.split()[0]`, and there is none iff `part.split()` is empty. */
  lemma FirstWordSplit(part: string)
    ensures FirstWord(part).None? <==> Words(part) == []
    ensures FirstWord(part).Some? ==> FirstWord(part).value == Words(part)[0]
  {
  }

  /**
   * `text.split(pattern)[1].split()[0]`: with `i` the first occurrence of the
   * pattern, `after` the text behind it and `e` where the next occurrence
   * starts in `after` (its length when there is none), the name is the first
   * whitespace-separated word of `after[..e]`, and there is none when that
   * stretch holds no word.
   */
  lemma NameAfterSpec(text: string, pattern: string, i: nat, after: string, e: nat)
    requires OccursAt(text, pattern, i) && forall k :: 0 <= k < i ==> !OccursAt(text, pattern, k)
    requires after == text[i + |pattern|..]
    requires e <= |after| && forall k :: 0 <= k < e ==> !OccursAt(after, pattern, k)
    requires e == |after| || OccursAt(after, pattern, e)
    ensures NameAfter(text, pattern) == FirstWord(after[..e])
    ensures NameAfter(text, pattern).None? <==> Words(after[..e]) == []
    ensures NameAfter(text, pattern).Some? ==> NameAfter(text, pattern).value == Words(after[..e])[0]
  {
    FindIs(text, pattern, i);
    assert NameAfter(text, pattern) == NameAt(text, pattern, i);
    UpToNextIs(after, pattern, e);
    FirstWordSplit(after[..e]);
  }

  /** The stretch before the next occurrence ends where that occurrence starts, or at the end. */
  lemma UpToNextIs(after: string, pattern: string, e: nat)
    requires e <= |after| && forall k :: 0 <= k < e ==> !OccursAt(after, pattern, k)
    requires e == |after| || OccursAt(after, pattern, e)
    ensures UpToNext(after, pattern) == after[..e]
  {
    if OccursAt(after, pattern, e) {
      FindIs(after, pattern, e);
    } else {
      assert after[..e] == after;
    }
  }

  /** `Find` from the start returns the occurrence that no other precedes. */
  lemma FindIs(s: string, w: string, i: nat)
    requires OccursAt(s, w, i) && forall k :: 0 <= k < i ==> !OccursAt(s, w, k)
    ensures Find(s, w, 0) == Some(i)
  {
  }

  /** The spoken time of the test call: "tomorrow at 4 pm" matches hour "4", no minute, and "pm". */
  lemma SpokenTimeExample(s: string)
    requires s == "tomorrow at 4 pm"
    ensures TimeMatch(s) == Some(TimeGroups("4", None, Some("pm")))
  {
    assert s[12] == '4' && s[13] == ' ' && s[14] == 'p' && s[15] == 'm' && |s| == 16;
    forall k | 0 <= k < 12 ensures !IsDigit(s[k]) { }
    assert !OccursAt(s, "am", 14) by { assert s[14..16][0] == 'p'; }
    TimeMatchSpec(s, 12, 14, 14);
    assert s[12..13] == "4";
  }

  /** ... and so books the time "4:00 pm". */
  lemma SpokenTimeString()
    ensures TimeString(TimeGroups("4", None, Some("pm"))) == "4:00 pm"
  {
    TimeStringShape(TimeGroups("4", None, Some("pm")));
  }

  /** What each pattern, in order, yields. */
  function Candidates(text: string, patterns: seq<string>): (c: seq<Option<string>>)
    ensures |c| == |patterns|
    ensures forall k :: 0 <= k < |patterns| ==> c[k] == NameAfter(text, patterns[k])
  {
    seq(|patterns|, k requires 0 <= k < |patterns| => NameAfter(text, patterns[k]))
  }

  /** The value a loop that overwrites on every `Some` leaves: the last `Some` of `c`. */
  function LastSome(c: seq<Option<string>>): Option<string> {
    if c == [] then None
    else if c[|c| - 1].Some? then c[|c| - 1]
    else LastSome(c[..|c| - 1])
  }

  /** The last `Some` is an entry of `c` with only `None` after it, and there is none exactly when all are `None`. */
  lemma {:induction false} LastSomeSpec(c: seq<Option<string>>)
    ensures LastSome(c).Some? ==> exists k :: 0 <= k < |c| && c[k] == LastSome(c) && forall j :: k < j < |c| ==> c[j].None?
    ensures LastSome(c).None? <==> forall k :: 0 <= k < |c| ==> c[k].None?
  {
    if c != [] {
      var n := |c| - 1;
      var init := c[..n];
      LastSomeSpec(init);
      assert forall k :: 0 <= k < n ==> init[k] == c[k];
      if c[n].None? && LastSome(c).Some? {
        var k :| 0 <= k < n && init[k] == LastSome(init) && forall j :: k < j < n ==> init[j].None?;
        assert c[k] == LastSome(c) && forall j :: k < j < |c| ==> c[j].None?;
      }
    }
  }

  /** One more entry overrides the result so far when it is a `Some`. */
  lemma LastSomeSnoc(c: seq<Option<string>>, k: nat)
    requires k < |c|
    ensures LastSome(c[..k + 1]) == if c[k].Some? then c[k] else LastSome(c[..k])
  {
    assert c[..k + 1][..k] == c[..k];
  }

  /** The name the pattern loop leaves behind: that of the last pattern that yields one. */
  function LastName(text: string, patterns: seq<string>): Option<string> {
    LastSome(Candidates(text, patterns))
  }

  /**
   * The name loop has no `break`: the name kept is the one of the last
   * pattern that yields a word, and no later pattern yields one.
   */
  lemma LastNameSpec(text: string, patterns: seq<string>)
    ensures LastName(text, patterns).Some? ==>
      exists k :: 0 <= k < |patterns| && NameAfter(text, patterns[k]) == LastName(text, patterns) &&
                  forall j :: k < j < |patterns| ==> NameAfter(text, patterns[j]).None?
    ensures LastName(text, patterns).None? <==> forall k :: 0 <= k < |patterns| ==> NameAfter(text, patterns[k]).None?
    ensures LastName(text, patterns).Some? ==> IsWord(LastName(text, patterns).value)
  {
    var c := Candidates(text, patterns);
    LastSomeSpec(c);
  }

  /** The date loop: stops at the first date keyword found. */
  method FindDateKeyword(text: string) returns (date: Option<string>)
    ensures date == FirstContained(text, DateKeywords)
  {
    date := None;
    var k := 0;
    while k < |DateKeywords|
      invariant 0 <= k <= |DateKeywords|
      invariant date.None? ==> FirstContained(text, DateKeywords) == FirstContained(text, DateKeywords[k..])
      invariant date.Some? ==> date == FirstContained(text, DateKeywords)
    {
      var keyword := DateKeywords[k];
      assert DateKeywords[k..][0] == keyword && DateKeywords[k..][1..] == DateKeywords[k + 1..];
      if Contains(text, keyword) {
        date := Some(keyword);
        break;
      }
      k := k + 1;
    }
  }

  /** The name loop: every pattern is tried, and each that yields a word overwrites the name. */
  method FindName(text: string) returns (name: Option<string>)
    ensures name == LastName(text, NamePatterns)
  {
    ghost var c := Candidates(text, NamePatterns);
    name := None;
    var k := 0;
    while k < |NamePatterns|
      invariant 0 <= k <= |NamePatterns|
      invariant name == LastSome(c[..k])
    {
      var pattern := NamePatterns[k];
      LastSomeSnoc(c, k);
      var potentialName := NameAfter(text, pattern);
      if potentialName.Some? {
        name := potentialName;
      }
      k := k + 1;
    }
    assert c[..k] == c;
  }

  // ---------------------------------------------------------------- the handlers as functions

  /** The manager's state, entries and the reply (or failure) after one input. */
  datatype Outcome = Outcome(state: ConversationState, info: AppointmentInfo, reply: Result<string, Failure>)

  /** `_handle_information_query`. */
  function InformationReply(text: string): (r: string)
    ensures (Contains(text, "hours") || Contains(text, "open") || Contains(text, "closed")) ==> r == HoursReply
    ensures r == LocationReply <==>
      !(Contains(text, "hours") || Contains(text, "open") || Contains(text, "closed")) &&
      (Contains(text, "location") || Contains(text, "address"))
    ensures r == ContactReply <==>
      !(Contains(text, "hours") || Contains(text, "open") || Contains(text, "closed")) &&
      !(Contains(text, "location") || Contains(text, "address")) &&
      (Contains(text, "contact") || Contains(text, "phone"))
    ensures r == SpecificReply <==>
      !(Contains(text, "hours") || Contains(text, "open") || Contains(text, "closed")) &&
      !(Contains(text, "location") || Contains(text, "address")) &&
      !(Contains(text, "contact") || Contains(text, "phone"))
  {
    if Contains(text, "hours") || Contains(text, "open") || Contains(text, "closed") then HoursReply
    else if Contains(text, "location") || Contains(text, "address") then LocationReply
    else if Contains(text, "contact") || Contains(text, "phone") then ContactReply
    else SpecificReply
  }

  /** `_handle_initial_request`: the state the call is in stays when no keyword matches. */
  function InitialRequest(state: ConversationState, info: AppointmentInfo, text: string): (r: Outcome)
    ensures r.info == info && r.reply.Ok?
    ensures r.state == AppointmentBooking || r.state == InformationGathering || r.state == state
    ensures ContainsAny(text, AppointmentKeywords) ==> r.state == AppointmentBooking
  {
    if ContainsAny(text, AppointmentKeywords) then Outcome(AppointmentBooking, info, Ok(BookingStarted))
    else if ContainsAny(text, InfoKeywords) then Outcome(InformationGathering, info, Ok(InformationReply(text)))
    else Outcome(state, info, Ok(OfferHelp))
  }

  /** The date step: a missing date becomes the first date keyword found. */
  function WithDate(info: AppointmentInfo, text: string): AppointmentInfo {
    if Missing(info.date) && FirstContained(text, DateKeywords).Some? then info.(date := FirstContained(text, DateKeywords))
    else info
  }

  /** The time step: a missing time becomes the spoken time of the text. */
  function WithTime(info: AppointmentInfo, text: string): AppointmentInfo {
    if Missing(info.time) && TimeMatch(text).Some? then info.(time := Some(TimeString(TimeMatch(text).value)))
    else info
  }

  /** The name step: a missing name becomes the name the pattern loop finds. */
  function WithName(info: AppointmentInfo, text: string): AppointmentInfo {
    if Missing(info.name) && LastName(text, NamePatterns).Some? then info.(name := LastName(text, NamePatterns))
    else info
  }

  /** The entries after the date, time and name steps of `_handle_appointment_booking`. */
  function Gather(info: AppointmentInfo, text: string): AppointmentInfo {
    WithName(WithTime(WithDate(info, text), text), text)
  }

  /** The reply and state once the entries of a booking turn are known. */
  function BookingReply(state: ConversationState, i: AppointmentInfo): Outcome {
    if !Missing(i.date) && !Missing(i.time) then
      if Missing(i.name) then Outcome(state, i, Ok(AskName))
      else Outcome(Closing, i, Ok(BookedReply(i.name.value, i.date.value, i.time.value)))
    else if Missing(i.date) then Outcome(state, i, Ok(AskDate))
    else if Missing(i.time) then Outcome(state, i, Ok(AskTime))
    else Outcome(state, i, Ok(StillGathering))
  }

  /** `_handle_appointment_booking`. */
  function AppointmentTurn(state: ConversationState, info: AppointmentInfo, text: string): (r: Outcome)
    ensures r.info == Gather(info, text) && r.reply.Ok?
    ensures r.state == Closing || r.state == state
    ensures r.state == Closing && state != Closing ==> !Missing(r.info.date) && !Missing(r.info.time) && !Missing(r.info.name)
  {
    BookingReply(state, Gather(info, text))
  }

  /** `_handle_general_query`. */
  function GeneralQuery(state: ConversationState, info: AppointmentInfo, text: string): (r: Outcome)
    ensures r.info == info && r.reply.Ok?
    ensures r.state == Closing || r.state == state
  {
    if Contains(text, "thank") || Contains(text, "thanks") then Outcome(Closing, info, Ok(WelcomeReply))
    else if Contains(text, "goodbye") || Contains(text, "bye") then Outcome(Closing, info, Ok(GoodbyeReply))
    else Outcome(state, info, Ok(HelpReply))
  }

  /** In the booking state `process_user_input` is the booking turn on the lowered, stripped text. */
  lemma ProcessInBooking(info: AppointmentInfo, text: string)
    ensures Process(AppointmentBooking, info, text) == AppointmentTurn(AppointmentBooking, info, Strip(Lower(text)))
  { }

  /** `process_user_input`: dispatch on the state with the lowered, stripped text. */
  function Process(state: ConversationState, info: AppointmentInfo, text: string): (r: Outcome)
    ensures r.reply.Err? <==> state == InformationGathering
    ensures state != AppointmentBooking ==> r.info == info
    ensures r.state == state || r.state == AppointmentBooking || r.state == InformationGathering || r.state == Closing
  {
    var lower := Strip(Lower(text));
    match state
    case Greeting => InitialRequest(state, info, lower)
    case AppointmentBooking => AppointmentTurn(state, info, lower)
    case InformationGathering => Outcome(state, info, Err(MissingHandler("_handle_information_gathering")))
    case _ => GeneralQuery(state, info, lower)
  }

  // ---------------------------------------------------------------- properties

  /** The state values are distinct, so the summary names the state unambiguously. */
  lemma StateValueInjective(a: ConversationState, b: ConversationState)
    requires StateValue(a) == StateValue(b)
    ensures a == b
  {
  }

  /**
   * In GREETING an appointment keyword starts the booking even when an
   * information keyword is present too; an information keyword alone moves
   * to INFORMATION_GATHERING; otherwise the state stays. The entries never
   * change here.
   */
  lemma GreetingStep(info: AppointmentInfo, text: string)
    ensures var o := Process(Greeting, info, text); var t := Strip(Lower(text));
      o.info == info && o.reply.Ok? &&
      (ContainsAny(t, AppointmentKeywords) ==> o.state == AppointmentBooking && o.reply == Ok(BookingStarted)) &&
      (!ContainsAny(t, AppointmentKeywords) && ContainsAny(t, InfoKeywords) ==>
        o.state == InformationGathering && o.reply == Ok(InformationReply(t))) &&
      (!ContainsAny(t, AppointmentKeywords) && !ContainsAny(t, InfoKeywords) ==> o.state == Greeting && o.reply == Ok(OfferHelp))
  {
  }

  /** Every input in INFORMATION_GATHERING fails and changes nothing, so the call is stuck there until a reset. */
  lemma InformationGatheringFails(info: AppointmentInfo, text: string)
    ensures Process(InformationGathering, info, text) ==
      Outcome(InformationGathering, info, Err(MissingHandler("_handle_information_gathering")))
  {
  }

  /**
   * During booking each of date, time and name is set at most once: an entry
   * already present is kept, and phone and reason are never touched.
   */
  lemma EntriesSetOnce(info: AppointmentInfo, text: string)
    ensures var i := Gather(info, text);
      (!Missing(info.date) ==> i.date == info.date) &&
      (!Missing(info.time) ==> i.time == info.time) &&
      (!Missing(info.name) ==> i.name == info.name) &&
      i.phone == info.phone && i.reason == info.reason
  {
  }

  /**
   * A missing date becomes the first date keyword, in the order listed, that
   * occurs in the text; a missing time becomes the spoken time of the first
   * digit; a missing name becomes a single word.
   */
  lemma EntriesFilled(info: AppointmentInfo, text: string)
    ensures var i := Gather(info, text);
      (Missing(info.date) && FirstContained(text, DateKeywords).Some? ==> i.date == FirstContained(text, DateKeywords)) &&
      (Missing(info.date) && FirstContained(text, DateKeywords).None? ==> i.date == info.date) &&
      (Missing(info.time) && TimeMatch(text).Some? ==> i.time == Some(TimeString(TimeMatch(text).value))) &&
      (Missing(info.time) && TimeMatch(text).None? ==> i.time == info.time) &&
      (Missing(info.name) && i.name != info.name ==> IsWord(i.name.value))
  {
    var i1 := WithDate(info, text);
    var i2 := WithTime(i1, text);
    WithDateSpec(info, text);
    WithTimeSpec(i1, text);
    WithNameSpec(i2, text);
  }

  lemma WithDateSpec(info: AppointmentInfo, text: string)
    ensures var i := WithDate(info, text);
      i.time == info.time && i.name == info.name &&
      (Missing(info.date) && FirstContained(text, DateKeywords).Some? ==> i.date == FirstContained(text, DateKeywords)) &&
      (!(Missing(info.date) && FirstContained(text, DateKeywords).Some?) ==> i.date == info.date)
  {
  }

  lemma WithTimeSpec(info: AppointmentInfo, text: string)
    ensures var i := WithTime(info, text);
      i.date == info.date && i.name == info.name &&
      (Missing(info.time) && TimeMatch(text).Some? ==> i.time == Some(TimeString(TimeMatch(text).value))) &&
      (!(Missing(info.time) && TimeMatch(text).Some?) ==> i.time == info.time)
  {
  }

  lemma WithNameSpec(info: AppointmentInfo, text: string)
    ensures var i := WithName(info, text);
      i.date == info.date && i.time == info.time &&
      (Missing(info.name) && i.name != info.name ==> IsWord(i.name.value))
  {
    LastNameSpec(text, NamePatterns);
  }

  /**
   * The booking handler closes the call exactly when date, time and name are
   * all present afterwards; with date and time but no name it asks for the
   * name, and short of closing it keeps the state it was in.
   */
  lemma ClosingOnlyWhenComplete(state: ConversationState, info: AppointmentInfo, text: string)
    ensures var o := AppointmentTurn(state, info, text);
      (o.state == Closing && state != Closing <==> !Missing(o.info.date) && !Missing(o.info.time) && !Missing(o.info.name) && state != Closing) &&
      (o.state != Closing ==> o.state == state) &&
      (!Missing(o.info.date) && !Missing(o.info.time) && Missing(o.info.name) ==> o.reply == Ok(AskName))
  {
  }

  /** An occurrence anywhere means `in` holds. */
  lemma OccursContains(s: string, w: string, i: nat)
    requires OccursAt(s, w, i)
    ensures Contains(s, w)
  {
    ContainsFind(s, w);
  }

  /** A text containing `a + b` contains `a` and contains `b`. */
  lemma ContainsParts(t: string, a: string, b: string)
    ensures Contains(t, a + b) ==> Contains(t, a) && Contains(t, b)
  {
    if Contains(t, a + b) {
      ContainsFind(t, a + b);
      var i := Find(t, a + b, 0).value;
      var occ := t[i..i + |a + b|];
      assert occ == a + b;
      forall k | 0 <= k < |a| ensures t[i + k] == a[k] {
        assert t[i + k] == occ[k];
      }
      assert t[i..i + |a|] == a;
      forall k | 0 <= k < |b| ensures t[i + |a| + k] == b[k] {
        assert t[i + |a| + k] == occ[|a| + k];
      }
      assert t[i + |a|..i + |a| + |b|] == b;
      OccursContains(t, a, i);
      OccursContains(t, b, i + |a|);
    }
  }

  /** "thanks" contains "thank" and "goodbye" contains "bye", so each pair of tests is one test. */
  lemma GeneralQuerySpec(state: ConversationState, info: AppointmentInfo, t: string)
    ensures var o := GeneralQuery(state, info, t);
      o.info == info &&
      (Contains(t, "thank") ==> o.state == Closing && o.reply == Ok(WelcomeReply)) &&
      (!Contains(t, "thank") && Contains(t, "bye") ==> o.state == Closing && o.reply == Ok(GoodbyeReply)) &&
      (!Contains(t, "thank") && !Contains(t, "bye") ==> o.state == state && o.reply == Ok(HelpReply))
  {
    ContainsParts(t, "thank", "s");
    ContainsParts(t, "good", "bye");
    assert "thank" + "s" == "thanks" && "good" + "bye" == "goodbye";
  }

  /** In every other state "thank"/"bye" closes the call and anything else leaves the state as it was. */
  lemma GeneralStep(state: ConversationState, info: AppointmentInfo, text: string)
    requires state != Greeting && state != AppointmentBooking && state != InformationGathering
    ensures var o := Process(state, info, text); var t := Strip(Lower(text));
      o.info == info &&
      (Contains(t, "thank") || Contains(t, "bye") ==> o.state == Closing) &&
      (!Contains(t, "thank") && !Contains(t, "bye") ==> o.state == state)
  {
    GeneralQuerySpec(state, info, Strip(Lower(text)));
  }

  /** The manager of one call. */
  class ConversationManager {
    var context: map<string, string>
    var state: ConversationState
    var appointmentInfo: AppointmentInfo

    /** A new manager waits in GREETING with nothing known. */
    constructor ()
      ensures state == Greeting && appointmentInfo == EmptyInfo && context == map[]
    {
      context := map[];
      state := Greeting;
      appointmentInfo := EmptyInfo;
    }

    /** `get_greeting`. */
    function GetGreeting(): (r: string)
      ensures r == GreetingText
    {
      GreetingText
    }

    /** `process_user_input`. */
    method ProcessUserInput(text: string) returns (r: Result<string, Failure>)
      modifies this
      ensures var o := Process(old(state), old(appointmentInfo), text);
        state == o.state && appointmentInfo == o.info && r == o.reply
      ensures context == old(context)
    {
      var textLower := Strip(Lower(text));
      ghost var s0, i0 := state, appointmentInfo;
      if state == Greeting {
        assert Process(s0, i0, text) == InitialRequest(s0, i0, textLower);
        var reply := HandleInitialRequest(textLower);
        r := Ok(reply);
      } else if state == AppointmentBooking {
        ProcessInBooking(i0, text);
        var reply := HandleAppointmentBooking(textLower);
        r := Ok(reply);
      } else if state == InformationGathering {
        r := Err(MissingHandler("_handle_information_gathering"));
      } else {
        assert Process(s0, i0, text) == GeneralQuery(s0, i0, textLower);
        var reply := HandleGeneralQuery(textLower);
        r := Ok(reply);
      }
    }

    /** `_handle_initial_request`. */
    method HandleInitialRequest(text: string) returns (reply: string)
      modifies this
      ensures var o := InitialRequest(old(state), old(appointmentInfo), text);
        state == o.state && appointmentInfo == o.info && Ok(reply) == o.reply
      ensures context == old(context)
    {
      if ContainsAny(text, AppointmentKeywords) {
        state := AppointmentBooking;
        return BookingStarted;
      }
      if ContainsAny(text, InfoKeywords) {
        state := InformationGathering;
        return InformationReply(text);
      }
      reply := OfferHelp;
    }

    /** The date step of `_handle_appointment_booking`. */
    method GatherDate(text: string)
      modifies this
      ensures appointmentInfo == WithDate(old(appointmentInfo), text)
      ensures state == old(state) && context == old(context)
    {
      if Missing(appointmentInfo.date) {
        var date := FindDateKeyword(text);
        if date.Some? {
          appointmentInfo := appointmentInfo.(date := date);
        }
      }
    }

    /** The time step of `_handle_appointment_booking`. */
    method GatherTime(text: string)
      modifies this
      ensures appointmentInfo == WithTime(old(appointmentInfo), text)
      ensures state == old(state) && context == old(context)
    {
      if Missing(appointmentInfo.time) {
        var m := TimeMatch(text);
        if m.Some? {
          appointmentInfo := appointmentInfo.(time := Some(TimeString(m.value)));
        }
      }
    }

    /** The name step of `_handle_appointment_booking`. */
    method GatherName(text: string)
      modifies this
      ensures appointmentInfo == WithName(old(appointmentInfo), text)
      ensures state == old(state) && context == old(context)
    {
      if Missing(appointmentInfo.name) {
        var name := FindName(text);
        if name.Some? {
          appointmentInfo := appointmentInfo.(name := name);
        }
      }
    }

    /** `_handle_appointment_booking`. */
    method HandleAppointmentBooking(text: string) returns (reply: string)
      modifies this
      ensures var o := AppointmentTurn(old(state), old(appointmentInfo), text);
        state == o.state && appointmentInfo == o.info && Ok(reply) == o.reply
      ensures context == old(context)
    {
      GatherDate(text);
      GatherTime(text);
      GatherName(text);
      if !Missing(appointmentInfo.date) && !Missing(appointmentInfo.time) {
        if Missing(appointmentInfo.name) {
          return AskName;
        }
        state := Closing;
        return BookedReply(appointmentInfo.name.value, appointmentInfo.date.value, appointmentInfo.time.value);
      }
      if Missing(appointmentInfo.date) {
        return AskDate;
      }
      if Missing(appointmentInfo.time) {
        return AskTime;
      }
      reply := StillGathering;
    }

    /** `_handle_general_query`. */
    method HandleGeneralQuery(text: string) returns (reply: string)
      modifies this
      ensures var o := GeneralQuery(old(state), old(appointmentInfo), text);
        state == o.state && appointmentInfo == o.info && Ok(reply) == o.reply
      ensures context == old(context)
    {
      if Contains(text, "thank") || Contains(text, "thanks") {
        state := Closing;
        return WelcomeReply;
      }
      if Contains(text, "goodbye") || Contains(text, "bye") {
        state := Closing;
        return GoodbyeReply;
      }
      reply := HelpReply;
    }

    /** `reset`: back to GREETING with nothing known and an empty context. */
    method Reset()
      modifies this
      ensures state == Greeting && appointmentInfo == EmptyInfo && context == map[]
    {
      state := Greeting;
      appointmentInfo := EmptyInfo;
      context := map[];
    }

    /** `get_transcript_summary`. */
    function GetTranscriptSummary(): (r: Summary)
      reads this
      ensures r.appointmentInfo == appointmentInfo && r.context == context
      ensures r.state == StateValue(state)
    {
      Summary(StateValue(state), appointmentInfo, context)
    }
  }
}

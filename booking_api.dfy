/**
 * The slot and booking rules of the REST backend (backend/main.py) over
 * in-memory copies of its two tables: doctors with working hours as "HH:MM"
 * text, and appointments with a status. Listing slots walks the working
 * hours in 30-minute steps and leaves out confirmed bookings; booking checks
 * that the doctor exists, that the slot is not taken and that the time lies
 * within the working hours, in that order, and then appends one confirmed
 * record.
 */
module BookingApi {
  import opened Wrappers
  import opened Text
  import opened Integers
  import Models
  import Chatbot

  /** A row of the `doctors` table. */
  datatype Doctor = Doctor(id: int, name: string, specialization: string, availableFrom: string, availableTo: string)

  /** A row of the `appointments` table. */
  datatype AppointmentRecord = AppointmentRecord(
    id: int, doctorId: int, patientName: string, phone: string, problem: string,
    date: string, time: string, status: string)

  /** An `HTTPException`: status code and detail. */
  datatype HttpError = HttpError(status: int, detail: string)

  /** The body returned by `get_available_slots`. */
  datatype SlotListing = SlotListing(date: string, availableSlots: seq<string>, bookedSlots: seq<string>)

  /** The body returned by a successful `book_appointment`. */
  datatype Booked = Booked(appointmentId: int, doctorName: string, patientName: string, date: string, time: string)

  const Confirmed := "confirmed"
  const DoctorNotFound := "Doctor not found"
  const SlotTaken := "This time slot is already booked. Please choose another time."
  const SlotsError := "Error fetching slots: "

  function OutOfHours(d: Doctor): string {
    "Doctor is available from " + d.availableFrom + " to " + d.availableTo + ". Please choose a time within this range."
  }

  /** `SELECT ... FROM doctors WHERE id = ?` with `fetchone`: the first row with that id. */
  function FindDoctor(doctors: seq<Doctor>, id: int): (r: Option<Doctor>)
    ensures r.Some? ==> r.value in doctors && r.value.id == id
    ensures r.None? <==> forall k :: 0 <= k < |doctors| ==> doctors[k].id != id
  {
    if doctors == [] then None
    else if doctors[0].id == id then Some(doctors[0])
    else
      var r := FindDoctor(doctors[1..], id);
      assert forall k :: 1 <= k < |doctors| ==> doctors[k] == doctors[1..][k - 1];
      r
  }

  /** The record is a confirmed appointment of that doctor on that date. */
  predicate ConfirmedFor(a: AppointmentRecord, doctorId: int, date: string) {
    a.doctorId == doctorId && a.date == date && a.status == Confirmed
  }

  /** The `booked_times` query: the times of the doctor's confirmed appointments that day, in table order. */
  function BookedTimes(appts: seq<AppointmentRecord>, doctorId: int, date: string): (r: seq<string>)
    ensures forall t :: t in r <==> exists k :: 0 <= k < |appts| && ConfirmedFor(appts[k], doctorId, date) && appts[k].time == t
  {
    if appts == [] then []
    else
      var rest := BookedTimes(appts[1..], doctorId, date);
      assert forall k :: 1 <= k < |appts| ==> appts[k] == appts[1..][k - 1];
      (if ConfirmedFor(appts[0], doctorId, date) then [appts[0].time] else []) + rest
  }

  /**
   * `h, m = map(int, s.split(":"))`: exactly two colon-separated fields, each
   * of which `int()` accepts (so signs, underscores and surrounding whitespace
   * pass, and a negative hour or minute is possible).
   */
  function ParseClock(s: string): Option<(int, int)> {
    match ColonFields(s)
    case None => None
    case Some(fields) =>
      match (PyInt(fields.0), PyInt(fields.1))
      case (Some(h), Some(m)) => Some((h, m))
      case _ => None
  }

  /** `s.split(":")` unpacked into two names: the text before and after the colon when there is exactly one. */
  function ColonFields(s: string): Option<(string, string)> {
    match Find(s, ":", 0)
    case None => None
    case Some(p) =>
      if Find(s[p + 1..], ":", 0).Some? then None else Some((s[..p], s[p + 1..]))
  }

  /** Minutes since midnight of a parsed "HH:MM". */
  function Minutes(hm: (int, int)): int {
    hm.0 * 60 + hm.1
  }

  /**
   * `f"{hour:02d}:{minute:02d}"` of `current // 60` and `current % 60`; with a
   * positive divisor Dafny's `/` and `%` are Python's floor division and modulo.
   */
  function ClockString(m: int): string {
    FormatInt(m / 60, 2) + ":" + FormatInt(m % 60, 2)
  }

  /** The slot starts from `current` on, 30 minutes apart and strictly before `to`, that are not booked. */
  function FreeMinutes(current: int, to: int, booked: seq<string>): (ms: seq<int>)
    ensures forall i :: 0 <= i < |ms| ==> current <= ms[i] < to && ClockString(ms[i]) !in booked
    decreases if current < to then to - current else 0
  {
    if current < to then
      (if ClockString(current) in booked then [] else [current]) + FreeMinutes(current + 30, to, booked)
    else []
  }

  /** The slot minutes as the labels the endpoint returns. */
  function Render(ms: seq<int>): (r: seq<string>)
    ensures |r| == |ms| && forall i :: 0 <= i < |ms| ==> r[i] == ClockString(ms[i])
  {
    seq(|ms|, i requires 0 <= i < |ms| => ClockString(ms[i]))
  }

  /** The doctor's working hours in minutes since midnight, when both parse. */
  function Window(d: Doctor): Option<(int, int)> {
    match (ParseClock(d.availableFrom), ParseClock(d.availableTo))
    case (Some(f), Some(t)) => Some((Minutes(f), Minutes(t)))
    case _ => None
  }

  /** What `get_available_slots` answers for the doctor and the date, given the two tables. */
  function AvailableSlots(doctors: seq<Doctor>, appts: seq<AppointmentRecord>, doctorId: int, date: string): (r: Result<SlotListing, HttpError>)
    ensures r.Err? ==> r.error.status == 404 || r.error.status == 500
    ensures r.Ok? ==> r.value.date == date && r.value.bookedSlots == BookedTimes(appts, doctorId, date)
    ensures r.Ok? ==> forall t :: t in r.value.availableSlots ==> t !in r.value.bookedSlots
  {
    match FindDoctor(doctors, doctorId)
    case None => Err(HttpError(404, DoctorNotFound))
    case Some(d) =>
      var booked := BookedTimes(appts, doctorId, date);
      match Window(d)
      case Some(w) => Ok(SlotListing(date, Render(FreeMinutes(w.0, w.1, booked)), booked))
      case None => Err(HttpError(500, SlotsError))
  }

  /** A confirmed appointment already holds that doctor, date and time. */
  predicate IsTaken(appts: seq<AppointmentRecord>, doctorId: int, date: string, time: string) {
    exists k :: 0 <= k < |appts| && ConfirmedFor(appts[k], doctorId, date) && appts[k].time == time
  }

  /** The checks of `book_appointment`, in the order it makes them; `Ok` carries the doctor. */
  function BookingCheck(doctors: seq<Doctor>, appts: seq<AppointmentRecord>, req: Models.AppointmentCreate): (r: Result<Doctor, HttpError>)
    ensures r.Err? ==> r.error.status == 404 || r.error.status == 400
    ensures r.Ok? ==> r.value in doctors && r.value.id == req.doctorId && !IsTaken(appts, req.doctorId, req.date, req.time)
    ensures r.Ok? ==> !LexLess(req.time, r.value.availableFrom) && !LexLess(r.value.availableTo, req.time)
  {
    match FindDoctor(doctors, req.doctorId)
    case None => Err(HttpError(404, DoctorNotFound))
    case Some(d) =>
      if IsTaken(appts, req.doctorId, req.date, req.time) then Err(HttpError(400, SlotTaken))
      else if LexLess(req.time, d.availableFrom) || LexLess(d.availableTo, req.time) then Err(HttpError(400, OutOfHours(d)))
      else Ok(d)
  }

  /** The record `book_appointment` inserts for a request under the given row id. */
  function RecordOf(id: int, req: Models.AppointmentCreate): AppointmentRecord {
    AppointmentRecord(id, req.doctorId, req.patientName, req.phone, req.problem, req.date, req.time, Confirmed)
  }

  /** No two confirmed appointments share doctor, date and time. */
  predicate NoDoubleBooking(appts: seq<AppointmentRecord>) {
    forall i, j :: 0 <= i < j < |appts| && ConfirmedFor(appts[i], appts[j].doctorId, appts[j].date) ==>
      appts[i].time != appts[j].time
  }

  /** Row ids increase along the table and none exceeds the last one handed out. */
  predicate IdsBelow(appts: seq<AppointmentRecord>, lastId: int) {
    (forall i, j :: 0 <= i < j < |appts| ==> appts[i].id < appts[j].id) &&
    (forall i :: 0 <= i < |appts| ==> appts[i].id <= lastId)
  }

  // ---------------------------------------------------------------- slot lemmas

  /** `p` is the position of the one and only colon of `s`. */
  predicate OnlyColonAt(s: string, p: int) {
    0 <= p < |s| && s[p] == ':' && forall q :: 0 <= q < |s| && q != p ==> s[q] != ':'
  }

  lemma ColonOccurs(s: string, j: nat)
    requires j < |s|
    ensures OccursAt(s, ":", j) <==> s[j] == ':'
  {
    assert s[j..j + 1] == [s[j]];
  }

  /** Unpacking the split succeeds exactly when there is one colon, and gives the text on each side of it. */
  lemma ColonFieldsSpec(s: string)
    ensures (forall p :: !OnlyColonAt(s, p)) ==> ColonFields(s).None?
    ensures forall p :: OnlyColonAt(s, p) ==> ColonFields(s) == Some((s[..p], s[p + 1..]))
  {
    match Find(s, ":", 0)
    case None =>
      forall p | 0 <= p < |s| ensures s[p] != ':' {
        ColonOccurs(s, p);
      }
    case Some(p) =>
      ColonOccurs(s, p);
      forall q | 0 <= q < p ensures s[q] != ':' {
        ColonOccurs(s, q);
      }
      var minute := s[p + 1..];
      match Find(minute, ":", 0)
      case Some(q) =>
        ColonOccurs(minute, q);
        assert s[p + 1 + q] == ':';
        assert forall p' :: !OnlyColonAt(s, p');
      case None =>
        forall q | p < q < |s| ensures s[q] != ':' {
          ColonOccurs(minute, q - p - 1);
        }
        assert OnlyColonAt(s, p);
  }

  /**
   * The hours parse exactly when the text has one colon and `int()` takes the
   * text on each side of it; the pair is those two integers.
   */
  lemma ParseClockSpec(s: string)
    ensures (forall p :: !OnlyColonAt(s, p)) ==> ParseClock(s).None?
    ensures forall p :: OnlyColonAt(s, p) ==>
      ParseClock(s) == if PyInt(s[..p]).Some? && PyInt(s[p + 1..]).Some? then Some((PyInt(s[..p]).value, PyInt(s[p + 1..]).value)) else None
  {
    ColonFieldsSpec(s);
  }

  /** A formatted integer holds no colon. */
  lemma NoColon(s: string)
    requires forall i :: 0 <= i < |s| ==> IsDigit(s[i]) || s[i] == '-'
    ensures Find(s, ":", 0).None?
  {
    forall j | 0 <= j < |s| ensures !OccursAt(s, ":", j) {
      ColonOccurs(s, j);
    }
  }

  /** A slot label splits at its colon into the hour and the minute as formatted. */
  lemma ClockFields(m: int)
    ensures ColonFields(ClockString(m)) == Some((FormatInt(m / 60, 2), FormatInt(m % 60, 2)))
  {
    var h, mi := FormatInt(m / 60, 2), FormatInt(m % 60, 2);
    FormatIntShape(m / 60, 2);
    FormatIntShape(m % 60, 2);
    var s := ClockString(m);
    assert s == h + ":" + mi;
    forall j | 0 <= j < |h| ensures !OccursAt(s, ":", j) {
      assert s[j] == h[j] && h[j] != ':';
      ColonOccurs(s, j);
    }
    assert OccursAt(s, ":", |h|) by {
      assert s[|h|..|h| + 1] == ":";
    }
    assert Find(s, ":", 0) == Some(|h|);
    assert s[..|h|] == h && s[|h| + 1..] == mi;
    NoColon(mi);
  }

  /** A rendered slot label parses back to its hour and minute, hence to its minute of the day. */
  lemma ClockRoundTrip(m: int)
    ensures ParseClock(ClockString(m)) == Some((m / 60, m % 60))
    ensures Minutes(ParseClock(ClockString(m)).value) == m
  {
    ClockFields(m);
    FormatIntRoundTrip(m / 60, 2);
    FormatIntRoundTrip(m % 60, 2);
  }

  /** Different minutes of the day never share a label. */
  lemma ClockStringInjective(a: int, b: int)
    requires ClockString(a) == ClockString(b)
    ensures a == b
  {
    ClockRoundTrip(a);
    ClockRoundTrip(b);
  }

  /**
   * A minute is offered exactly when it lies in [from, to), is a whole number
   * of 30-minute steps after `from`, and its label is not booked.
   */
  lemma FreeMinutesSpec(from: int, to: int, booked: seq<string>)
    ensures forall m :: m in FreeMinutes(from, to, booked) <==>
      from <= m < to && (m - from) % 30 == 0 && ClockString(m) !in booked
  {
    FreeMinutesOnGrid(from, from, to, booked);
    FreeMinutesComplete(from, to, booked);
  }

  /** From a start on the grid of `base`, every offered minute is on that grid. */
  lemma {:induction false} FreeMinutesOnGrid(base: int, from: int, to: int, booked: seq<string>)
    requires (from - base) % 30 == 0
    ensures forall m :: m in FreeMinutes(from, to, booked) ==> (m - base) % 30 == 0
    decreases if from < to then to - from else 0
  {
    if from < to {
      GridNext(base, from);
      FreeMinutesOnGrid(base, from + 30, to, booked);
      if ClockString(from) in booked {
        BookedSkipped(from, to, booked);
      } else {
        FreeStep([], from, to, booked);
      }
    }
  }

  /** Every free minute on the 30-minute grid of [from, to) is offered. */
  lemma {:induction false} FreeMinutesComplete(from: int, to: int, booked: seq<string>)
    ensures forall m :: from <= m < to && (m - from) % 30 == 0 && ClockString(m) !in booked ==> m in FreeMinutes(from, to, booked)
    decreases if from < to then to - from else 0
  {
    if from < to {
      FreeMinutesComplete(from + 30, to, booked);
      var rest := FreeMinutes(from + 30, to, booked);
      assert FreeMinutes(from, to, booked) == (if ClockString(from) in booked then [] else [from]) + rest;
      forall m | from < m < to && (m - from) % 30 == 0 && ClockString(m) !in booked
        ensures m in rest
      {
        assert m - from >= 30;
        StepRemainder(m - (from + 30));
        assert m - from == (m - (from + 30)) + 30;
      }
    }
  }

  /** The next slot start is on the same grid. */
  lemma GridNext(base: int, m: int)
    requires (m - base) % 30 == 0
    ensures (m + 30 - base) % 30 == 0
  {
    assert m + 30 - base == (m - base) + 30;
  }

  lemma StepRemainder(x: nat)
    ensures (x + 30) % 30 == x % 30
  {
  }

  predicate Increasing(ms: seq<int>) {
    forall i, j :: 0 <= i < j < |ms| ==> ms[i] < ms[j]
  }

  /** The offered minutes are strictly increasing and start no earlier than `from`. */
  lemma {:induction false} FreeMinutesIncreasing(from: int, to: int, booked: seq<string>)
    ensures forall i :: 0 <= i < |FreeMinutes(from, to, booked)| ==> from <= FreeMinutes(from, to, booked)[i]
    ensures Increasing(FreeMinutes(from, to, booked))
    decreases if from < to then to - from else 0
  {
    if from < to {
      FreeMinutesIncreasing(from + 30, to, booked);
      var rest := FreeMinutes(from + 30, to, booked);
      var ms := FreeMinutes(from, to, booked);
      if ClockString(from) in booked {
        assert ms == rest;
      } else {
        assert ms == [from] + rest;
        forall i | 1 <= i < |ms| ensures ms[i] == rest[i - 1] && from < ms[i] {
          assert ms[i] == rest[i - 1];
        }
      }
    }
  }

  /**
   * No booked label is offered, and neither is the label of the end of the
   * working hours.
   */
  lemma SlotsAvoidBookedAndEnd(from: int, to: int, booked: seq<string>)
    ensures forall s :: s in booked ==> s !in Render(FreeMinutes(from, to, booked))
    ensures ClockString(to) !in Render(FreeMinutes(from, to, booked))
  {
    var ms := FreeMinutes(from, to, booked);
    var slots := Render(ms);
    FreeMinutesSpec(from, to, booked);
    forall s | s in slots ensures s !in booked && s != ClockString(to) {
      var i :| 0 <= i < |ms| && slots[i] == s;
      assert ms[i] in ms;
      if s == ClockString(to) {
        ClockStringInjective(ms[i], to);
      }
    }
  }

  /**
   * The listing fails with 404 for an unknown doctor and with 500 when the
   * working hours do not parse; otherwise it carries the date, the booked
   * times of the day and, as labels, the free minutes of the working hours.
   */
  lemma AvailableSlotsSpec(doctors: seq<Doctor>, appts: seq<AppointmentRecord>, doctorId: int, date: string)
    ensures FindDoctor(doctors, doctorId).None? ==> AvailableSlots(doctors, appts, doctorId, date) == Err(HttpError(404, DoctorNotFound))
    ensures FindDoctor(doctors, doctorId).Some? && Window(FindDoctor(doctors, doctorId).value).None? ==>
      AvailableSlots(doctors, appts, doctorId, date) == Err(HttpError(500, SlotsError))
    ensures AvailableSlots(doctors, appts, doctorId, date).Ok? ==>
      var w := Window(FindDoctor(doctors, doctorId).value).value;
      var listing := AvailableSlots(doctors, appts, doctorId, date).value;
      listing.date == date &&
      listing.bookedSlots == BookedTimes(appts, doctorId, date) &&
      listing.availableSlots == Render(FreeMinutes(w.0, w.1, listing.bookedSlots))
  {
  }

  /** Only confirmed appointments of that doctor on that date make a time booked. */
  lemma BookedTimesSpec(appts: seq<AppointmentRecord>, doctorId: int, date: string, time: string)
    ensures time in BookedTimes(appts, doctorId, date) <==> IsTaken(appts, doctorId, date, time)
  {
  }

  /** An unknown doctor fails both endpoints with 404. */
  lemma UnknownDoctor(doctors: seq<Doctor>, appts: seq<AppointmentRecord>, req: Models.AppointmentCreate, date: string)
    requires forall k :: 0 <= k < |doctors| ==> doctors[k].id != req.doctorId
    ensures AvailableSlots(doctors, appts, req.doctorId, date) == Err(HttpError(404, DoctorNotFound))
    ensures BookingCheck(doctors, appts, req) == Err(HttpError(404, DoctorNotFound))
  {
  }

  /**
   * For an existing doctor a taken slot is refused as taken before the
   * working hours are looked at; a free slot is refused exactly when its time
   * sorts before the start or after the end, so the end time itself passes.
   */
  lemma BookingCheckOrder(doctors: seq<Doctor>, appts: seq<AppointmentRecord>, req: Models.AppointmentCreate)
    requires FindDoctor(doctors, req.doctorId).Some?
    ensures var d := FindDoctor(doctors, req.doctorId).value;
      (IsTaken(appts, req.doctorId, req.date, req.time) ==> BookingCheck(doctors, appts, req) == Err(HttpError(400, SlotTaken))) &&
      (!IsTaken(appts, req.doctorId, req.date, req.time) ==>
        (BookingCheck(doctors, appts, req).Ok? <==> !LexLess(req.time, d.availableFrom) && !LexLess(d.availableTo, req.time))) &&
      (!IsTaken(appts, req.doctorId, req.date, req.time) && req.time == d.availableTo && !LexLess(d.availableTo, d.availableFrom) ==>
        BookingCheck(doctors, appts, req) == Ok(d))
  {
    var d := FindDoctor(doctors, req.doctorId).value;
    LexLessIrreflexive(d.availableTo);
  }

  lemma {:induction false} LexLessIrreflexive(a: string)
    ensures !LexLess(a, a)
  {
    if a != [] {
      LexLessIrreflexive(a[1..]);
    }
  }

  /**
   * The end of the working hours, written in the canonical HH:MM form, is
   * accepted by the hours check yet never offered as a slot.
   */
  lemma EndTimeBookableNotOffered(doctors: seq<Doctor>, appts: seq<AppointmentRecord>, req: Models.AppointmentCreate)
    requires AvailableSlots(doctors, appts, req.doctorId, req.date).Ok?
    requires var d := FindDoctor(doctors, req.doctorId).value;
      req.time == d.availableTo && d.availableTo == ClockString(Window(d).value.1) &&
      !LexLess(d.availableTo, d.availableFrom) && !IsTaken(appts, req.doctorId, req.date, req.time)
    ensures BookingCheck(doctors, appts, req).Ok?
    ensures req.time !in AvailableSlots(doctors, appts, req.doctorId, req.date).value.availableSlots
  {
    BookingCheckOrder(doctors, appts, req);
    var d := FindDoctor(doctors, req.doctorId).value;
    var w := Window(d).value;
    SlotsAvoidBookedAndEnd(w.0, w.1, BookedTimes(appts, req.doctorId, req.date));
  }

  /** Appending the record of a booking that passed its checks keeps the tables free of double bookings. */
  lemma BookingKeepsNoDoubleBooking(appts: seq<AppointmentRecord>, id: int, req: Models.AppointmentCreate)
    requires NoDoubleBooking(appts)
    requires !IsTaken(appts, req.doctorId, req.date, req.time)
    ensures NoDoubleBooking(appts + [RecordOf(id, req)])
  {
    var all := appts + [RecordOf(id, req)];
    forall i, j | 0 <= i < j < |all| && ConfirmedFor(all[i], all[j].doctorId, all[j].date)
      ensures all[i].time != all[j].time
    {
      if j == |appts| {
        assert all[i] == appts[i] && all[j] == RecordOf(id, req);
      } else {
        assert all[i] == appts[i] && all[j] == appts[j];
      }
    }
  }

  // ---------------------------------------------------------------- cross-module lemmas

  /** The chatbot's phone rule and the request model's phone rule accept the same phones. */
  lemma PhoneRulesAgree(phone: string)
    ensures Chatbot.ValidatePhone(phone) <==> Models.ValidatePhone(phone).Ok?
  {
    Models.CleanPhoneDigits(phone);
  }

  /**
   * A chat session that reached completion carries a name, a phone and a
   * problem that the booking request's validators accept unchanged.
   */
  lemma CompletedSessionValid(s: Chatbot.Session)
    requires Chatbot.WellFormed(s) && s.state == Chatbot.Complete
    ensures Models.ValidateName(s.data.patientName) == Ok(s.data.patientName)
    ensures Models.ValidatePhone(s.data.phone) == Ok(s.data.phone)
    ensures Models.ValidateProblem(s.data.problem) == Ok(s.data.problem)
  {
    StripStripped(s.data.patientName);
    StripStripped(s.data.problem);
    DigitsOfDigits(s.data.phone);
    assert Models.PhoneCharsOnly(s.data.phone);
  }

  lemma RenderSnoc(ms: seq<int>, m: int)
    ensures Render(ms + [m]) == Render(ms) + [ClockString(m)]
  {
    assert |Render(ms + [m])| == |Render(ms) + [ClockString(m)]|;
  }

  /** A booked slot at `current` is skipped. */
  lemma BookedSkipped(current: int, to: int, booked: seq<string>)
    requires current < to && ClockString(current) in booked
    ensures FreeMinutes(current, to, booked) == FreeMinutes(current + 30, to, booked)
  {
  }

  /** A free slot at `current` moves from the slots still to come to the slots offered. */
  lemma FreeStep(offered: seq<int>, current: int, to: int, booked: seq<string>)
    requires current < to && ClockString(current) !in booked
    ensures offered + FreeMinutes(current, to, booked) == (offered + [current]) + FreeMinutes(current + 30, to, booked)
  {
    assert FreeMinutes(current, to, booked) == [current] + FreeMinutes(current + 30, to, booked);
  }

  /** The loop of `get_available_slots`: every 30 minutes from `fromTime` while before `toTime`, the labels not booked. */
  method CollectSlots(fromTime: int, toTime: int, bookedTimes: seq<string>) returns (slots: seq<string>)
    ensures slots == Render(FreeMinutes(fromTime, toTime, bookedTimes))
  {
    slots := [];
    ghost var offered: seq<int> := [];
    var current := fromTime;
    while current < toTime
      invariant offered + FreeMinutes(current, toTime, bookedTimes) == FreeMinutes(fromTime, toTime, bookedTimes)
      invariant slots == Render(offered)
      decreases toTime - current
    {
      var hour := current / 60;
      var minute := current % 60;
      var timeStr := FormatInt(hour, 2) + ":" + FormatInt(minute, 2);
      assert timeStr == ClockString(current);
      if timeStr !in bookedTimes {
        FreeStep(offered, current, toTime, bookedTimes);
        RenderSnoc(offered, current);
        slots := slots + [timeStr];
        offered := offered + [current];
      } else {
        BookedSkipped(current, toTime, bookedTimes);
      }
      current := current + 30;
    }
    assert FreeMinutes(current, toTime, bookedTimes) == [];
  }

  /** The two tables and the last row id handed out for appointments. */
  class Clinic {
    var doctors: seq<Doctor>
    var appointments: seq<AppointmentRecord>
    var lastId: int

    ghost predicate Valid()
      reads this
    {
      NoDoubleBooking(appointments) && IdsBelow(appointments, lastId)
    }

    /**
     * Opens the database. `CREATE TABLE IF NOT EXISTS` keeps the appointments
     * of earlier runs, and AUTOINCREMENT keeps the largest id ever handed out
     * (`lastId`); a first run starts from an empty table and `lastId` 0. The
     * stored table is one that `book_appointment` alone has written.
     */
    constructor (doctors: seq<Doctor>, appointments: seq<AppointmentRecord>, lastId: int)
      requires NoDoubleBooking(appointments) && IdsBelow(appointments, lastId)
      ensures Valid()
      ensures this.doctors == doctors && this.appointments == appointments && this.lastId == lastId
    {
      this.doctors := doctors;
      this.appointments := appointments;
      this.lastId := lastId;
    }

    /** `get_available_slots`: the doctor's free 30-minute slots on the date. */
    method GetAvailableSlots(doctorId: int, date: string) returns (r: Result<SlotListing, HttpError>)
      ensures r == AvailableSlots(doctors, appointments, doctorId, date)
    {
      var doctor := FindDoctor(doctors, doctorId);
      if doctor.None? {
        return Err(HttpError(404, DoctorNotFound));
      }
      var bookedTimes := BookedTimes(appointments, doctorId, date);
      var window := Window(doctor.value);
      if window.None? {
        return Err(HttpError(500, SlotsError));
      }
      var fromTime, toTime := window.value.0, window.value.1;
      var slots := CollectSlots(fromTime, toTime, bookedTimes);
      r := Ok(SlotListing(date, slots, bookedTimes));
    }

    /**
     * `book_appointment`: refuses with the first failing check and leaves the
     * tables alone, or appends one confirmed record under the next row id.
     */
    method BookAppointment(req: Models.AppointmentCreate) returns (r: Result<Booked, HttpError>)
      requires Valid()
      modifies this
      ensures Valid()
      ensures doctors == old(doctors)
      ensures var c := BookingCheck(old(doctors), old(appointments), req);
        (c.Err? ==> r == Err(c.error) && appointments == old(appointments) && lastId == old(lastId)) &&
        (c.Ok? ==> lastId == old(lastId) + 1 &&
                   appointments == old(appointments) + [RecordOf(lastId, req)] &&
                   r == Ok(Booked(lastId, c.value.name, req.patientName, req.date, req.time)))
    {
      var doctor := FindDoctor(doctors, req.doctorId);
      if doctor.None? {
        return Err(HttpError(404, DoctorNotFound));
      }
      var existing := IsTaken(appointments, req.doctorId, req.date, req.time);
      if existing {
        return Err(HttpError(400, SlotTaken));
      }
      var doctorFrom := doctor.value.availableFrom;
      var doctorTo := doctor.value.availableTo;
      if LexLess(req.time, doctorFrom) || LexLess(doctorTo, req.time) {
        return Err(HttpError(400, OutOfHours(doctor.value)));
      }
      var appointmentId := lastId + 1;
      BookingKeepsNoDoubleBooking(appointments, appointmentId, req);
      appointments := appointments + [RecordOf(appointmentId, req)];
      lastId := appointmentId;
      r := Ok(Booked(appointmentId, doctor.value.name, req.patientName, req.date, req.time));
    }
  }
}

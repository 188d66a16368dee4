# AI receptionist: a verified model of its booking and voice-call logic

This project models, in Dafny, the logic of an "AI receptionist" appointment-booking product and proves properties of it. The model covers these parts:

- **Booking chatbot** (`backend/chatbot.py`, module `Chatbot`).
  - Each chat session walks greeting, name, phone, problem, date, time, confirmation and completion, one accepted message per step.
  - A rejected message leaves the session as it was. "no" at the confirmation starts over and keeps only the doctor.
  - Phones, dates and times are picked out of the message with the chatbot's regular expressions, modelled by a small backtracking matcher (module `Regex`).
  - Dates and times are then checked against today's date.
  - The store of sessions is a class whose map field every message updates.
- **REST backend** (`backend/main.py` and `backend/models.py`, modules `BookingApi` and `Models`).
  - Listing the free slots walks a doctor's working hours in 30-minute steps and leaves out confirmed bookings.
  - Booking checks three things, in this order: the doctor exists, the slot is not taken, and the time lies within the working hours as compared as text. It then appends one confirmed record.
  - The request models validate the phone (ten digits once spaces and dashes are removed), the name and the problem.
- **Voice-call server** (`AI_tool_dev/conversation_flow.py` and `AI_tool_dev/utils.py`, modules `Conversation` and `VoiceUtils`).
  - A keyword-driven conversation manager collects a date keyword, a spoken time and a name, each at most once, and closes the call when all three are known.
  - It dispatches INFORMATION_GATHERING to a handler the class does not define, so every input in that state fails.
  - The string helpers format phone numbers toward E.164 ("+digits"), count digits, and collapse and truncate text.
- **Live voice session in the browser** (`services/geminiService.ts`, module `LiveVoice`).
  - Audio chunks are scheduled on a cursor: `start = max(cursor, clock)`, then the cursor moves to the end of the chunk. An interruption resets the cursor.
  - The volume check drives the activity flag.
  - Transcript lines are reported, and `cleanup` releases the handles.
  - Audio objects are reduced to whether each handle is set. What the manager passes to its callbacks is kept as an event log.
- **Best-slot dashboard** (`app.py`, module `SlotSuggestion`). It proposes the free slots with the lowest no-show probability, using a stable sort. Booking marks the slot occupied in place, in an array.
- **Single-page app** (`App.tsx` and `types.ts`, modules `Navigation` and `AppTypes`). It switches screens. The dashboard is shown only to a signed-in user.

Helper modules:
- `Wrappers`: `Option` and `Result`.
- `Text`: Python's `strip`, `lower`, `split`, `in`, `[:n]` and zero-padded formatting of naturals, on `seq<char>`.
- `Integers`: Python's `int(str)` and the `02d` format of a possibly negative integer.

A failing `int(...)` and a failing `strptime` become `None`/`Err` values. `int(...)` is modelled as Python defines it for strings: surrounding whitespace is stripped, one optional `+` or `-` sign, then ASCII digits with single underscores between digits. The clock, `strptime` and the no-show model are parameters.

Where the code differs from the documented intent of the voice session, the model follows the code:
- A `connect` whose audio-context or microphone step throws reports ERROR but releases nothing. `LiveVoice.LiveVoiceManager.Connect` states the handles that the earlier steps set stay set. The live connection itself cannot fail on this path: `ai.live.connect` is not awaited, so its failure arrives through `onerror`, which cleans up (`LiveVoice.LiveVoiceManager.OnError`).
- An interruption resets the playback cursor to 0, not to the output clock. `LiveVoice.AfterInterruption` proves this has the same effect: with a clock that is never negative, the next chunk starts at the clock.

## Model

| member | source | states |
|---|---|---|
| Chatbot.GetNextState | backend/chatbot.py:29-31 | each of greeting..confirm is followed by the next state of the flow, confirmation by completion |
| Chatbot.ValidatePhoneSpec | backend/chatbot.py:33-36 | `validate_phone` accepts iff the phone holds only digits, spaces and dashes with exactly ten digits; the cleaned text is then those digits |
| Chatbot.FirstParse | backend/chatbot.py:45-50 | the result is the parse of the first format that succeeds, every earlier format failed; there is none exactly when every format fails |
| Chatbot.ValidateDate | backend/chatbot.py:38-61 | the loop over the four date formats gives exactly the answer `DateCheck` defines: format error, past-date error, or the normalised date |
| Chatbot.DateCheckSpec | backend/chatbot.py:52-61 | no parse gives the format message; a parsed date is accepted iff it is not before today (today itself is accepted); an accepted date is rendered YYYY-MM-DD and reads back as the parsed year, month and day |
| Chatbot.FormatDateShape | backend/chatbot.py:61 | `strftime("%Y-%m-%d")` of a date with 4-digit year and 2-digit month/day has dashes at 4 and 7 and its fields parse back to the date |
| Chatbot.ValidateTime | backend/chatbot.py:65-84 | the loop over the four time formats gives exactly `TimeCheck`: nothing, or the first parse as HH:MM |
| Chatbot.TimeCheckSpec | backend/chatbot.py:72-82 | a time is refused iff no format parses it; otherwise the result is the first parse as HH:MM, whose fields read back as hour and minute |
| Chatbot.FormatTimeShape | backend/chatbot.py:82 | `strftime("%H:%M")` of a time with 2-digit fields is five characters with a colon at 2, and both fields parse back |
| Chatbot.ExtractPhone | backend/chatbot.py:90-95 | an extracted phone is exactly ten digits |
| Chatbot.ExtractPhoneSpec | backend/chatbot.py:90-95 | the phone is the leftmost run of ten digits of the message without spaces and dashes; there is none iff no ten digits stand together |
| Chatbot.FirstSearch | backend/chatbot.py:104-108 | the search result of the first pattern that matches, every earlier pattern failing; none iff no pattern matches |
| Chatbot.ExtractDate | backend/chatbot.py:97-108 | a day-first date found anywhere in the message wins; otherwise the year-first search decides |
| Chatbot.ExtractTime | backend/chatbot.py:110-120 | an `H:MM` time in the lowered message wins; otherwise the hour-with-am/pm search decides |
| Chatbot.ExtractInfo | backend/chatbot.py:86-122 | a field other than phone, date or time yields nothing; a phone yields ten digits |
| Chatbot.ExtractedPhoneValid | backend/chatbot.py:185-190 | every extracted phone passes `validate_phone`, so the second check in ask_phone never refuses one |
| Chatbot.NewSessionStart | backend/chatbot.py:128-139 | a new session starts in greeting with every field empty and the doctor it was opened for, and is well formed |
| Chatbot.RespondKeepsWellFormed | backend/chatbot.py:141-320 | every message keeps the session invariant: state in 0..7, each field filled exactly when its state has passed; name and problem stripped with at least 2 and 5 characters, phone ten digits; date and time only known to be non-empty |
| Chatbot.GreetingStep | backend/chatbot.py:148-163 | in greeting, the session moves to ask_name iff the lowered, stripped message contains a greeting word, and is otherwise unchanged; not complete |
| Chatbot.CollectingStep | backend/chatbot.py:166-273 | in ask_name..ask_time an accepted message moves exactly one state on and changes only that state's field; any other message leaves the session unchanged; never complete |
| Chatbot.CollectedValues | backend/chatbot.py:166-273 | an accepted message stores the stripped name, the extracted phone, the stripped problem, and the date and time exactly as `validate_date` and `validate_time` return them |
| Chatbot.ConfirmStep | backend/chatbot.py:276-311 | "yes"/"confirm" (looked for first) completes; else "no"/"cancel" restarts in greeting with all fields emptied but the doctor; else nothing changes |
| Chatbot.CompletionFlag | backend/chatbot.py:276-320 | `is_complete` is true exactly for a "yes" at the confirmation and in the complete state, and a complete session never changes |
| Chatbot.RespondMoves | backend/chatbot.py:141-320 | a message keeps the state, moves it to `get_next_state`, or (confirmation only) restarts at greeting; only greeting..confirm ever change |
| Chatbot.Step | backend/chatbot.py:141-320 | the branch-by-branch body of `process_message` computes exactly the next session, reply and flag that `Respond` defines |
| Chatbot.AppointmentChatbot.constructor | backend/chatbot.py:26-27 | the store starts empty and valid |
| Chatbot.AppointmentChatbot.ProcessMessage | backend/chatbot.py:124-320 | stores the session after the message under its id (opening it if new), keeps every stored session well formed, and returns the reply text, the id, the session's data and the flag |
| Chatbot.AppointmentChatbot.ClearSession | backend/chatbot.py:326-329 | removes the session's id and nothing else; an unknown id changes nothing |
| Models.ValidatePhone | backend/models.py:27-34 | accepted iff the phone has only digits, spaces and dashes with exactly ten digits; the value returned is the digits; otherwise the fixed message |
| Models.CleanPhoneDigits | backend/models.py:31-32 | removing spaces and dashes leaves only digits iff nothing else was there, and then leaves exactly the digits |
| Models.ValidatePhoneIdempotent | backend/models.py:27-34 | a validated phone validates again to itself |
| Models.ValidateName | backend/models.py:36-41 | an accepted name is stripped with at least 2 characters; a refusal carries the name message |
| Models.ValidateNameSpec | backend/models.py:36-41 | refused iff the stripped name is shorter than 2; the accepted value is the stripped name, and validating it again gives it back |
| Models.ValidateProblem | backend/models.py:43-48 | an accepted problem is stripped with at least 5 characters; a refusal carries the problem message |
| Models.ValidateProblemSpec | backend/models.py:43-48 | refused iff the stripped text is shorter than 5; the accepted value is the stripped text, and validating it again gives it back |
| Models.ValidateAppointment | backend/models.py:18-48 | a request passes iff all three validators pass, and then carries the stripped name, the phone's digits and the stripped problem; otherwise the name, phone and problem messages of exactly the validators that failed, in that order |
| Models.ChatMessageOf | backend/models.py:63-67 | a chat message has no session and no doctor by default |
| Models.ChatResponseOf | backend/models.py:70-75 | a chat response has no appointment data and is not complete by default |
| BookingApi.FindDoctor | backend/main.py:107-111 | a found doctor is in the table with that id; none is found iff no row has the id |
| BookingApi.BookedTimes | backend/main.py:114-119 | a time is listed iff some confirmed appointment of that doctor on that date has it |
| Integers.PyIntIgnoresSpace | backend/main.py:126-127 | `int()` gives the same answer with or without the surrounding whitespace |
| Integers.PyIntDigits | backend/main.py:126-127 | on a text of ASCII digits alone, `int()` is their decimal value |
| Integers.PyIntPlus | backend/main.py:126-127 | a leading `+` does not change the value |
| Integers.PyIntNegative | backend/main.py:126-127 | `-` before digits gives the negated value |
| Integers.PyIntUnderscore | backend/main.py:126-127 | one underscore between two digit runs is ignored |
| Integers.FormatIntShape | backend/main.py:138 | an `02d` field is non-empty, made of digits and a leading `-` exactly for a negative number, and ends in a digit |
| Integers.FormatIntRoundTrip | backend/main.py:126-138 | `int()` of an `02d` field is the number formatted, negative or not |
| BookingApi.ColonFieldsSpec | backend/main.py:126-127 | unpacking `split(":")` into two names succeeds iff the text has exactly one colon, and gives the text on each side |
| BookingApi.ParseClockSpec | backend/main.py:126-127 | the hours parse iff there is exactly one colon and `int()` accepts both sides; the pair is the two integers |
| BookingApi.FreeMinutes | backend/main.py:132-143 | every offered minute lies in [current, to) and its label is not booked |
| BookingApi.Render | backend/main.py:136-141 | one `HH:MM` label per slot minute, in order |
| BookingApi.ClockRoundTrip | backend/main.py:126-138 | a slot label parses back, through the `split(":")` parse, to its hour and minute and so to its minute of the day |
| BookingApi.ClockStringInjective | backend/main.py:136-140 | two slot minutes with the same label are equal |
| BookingApi.FreeMinutesSpec | backend/main.py:132-143 | a minute is offered iff it lies in [from, to), is a whole number of 30-minute steps after from, and its label is not booked |
| BookingApi.FreeMinutesIncreasing | backend/main.py:132-143 | the offered minutes are strictly increasing and start no earlier than the opening time |
| BookingApi.SlotsAvoidBookedAndEnd | backend/main.py:135-143 | no booked label and not the end of the working hours is ever offered |
| BookingApi.CollectSlots | backend/main.py:132-143 | the slot loop returns exactly the labels of the free minutes |
| BookingApi.AvailableSlots | backend/main.py:99-150 | errors are 404 or 500; a listing carries the date, the booked times, and never offers a booked time |
| BookingApi.AvailableSlotsSpec | backend/main.py:99-150 | unknown doctor gives 404; hours that `split(":")` and `int()` refuse give 500; otherwise the date, the booked times and the labels of the free minutes |
| BookingApi.BookedTimesSpec | backend/main.py:114-119 | a time is among the booked slots iff a confirmed appointment holds that doctor, date and time |
| BookingApi.UnknownDoctor | backend/main.py:107-111 | an unknown doctor fails both listing and booking with 404 "Doctor not found" |
| BookingApi.BookingCheck | backend/main.py:179-209 | errors are 404 or 400; an accepted request names a doctor of the table with that id, a slot not taken, and a time within the hours as text |
| BookingApi.BookingCheckOrder | backend/main.py:186-209 | a taken slot is refused as taken before the hours are checked; a free slot is accepted iff its time is not before the start nor after the end as text, so the end time itself is accepted |
| BookingApi.EndTimeBookableNotOffered | backend/main.py:199-209 | the end of the working hours, written as HH:MM, is accepted by booking though never offered by the listing |
| BookingApi.BookingKeepsNoDoubleBooking | backend/main.py:186-222 | appending the record of a booking that passed the taken check keeps every doctor/date/time confirmed at most once |
| BookingApi.PhoneRulesAgree | backend/chatbot.py:33-36 | the chatbot's phone check and the request model's phone validator accept the same phones |
| BookingApi.CompletedSessionValid | backend/models.py:27-48 | a completed chat session's name, phone and problem pass the request validators unchanged |
| BookingApi.Clinic.constructor | backend/database.py:19-49 | the tables are those the database holds: the appointments of earlier runs survive (`CREATE TABLE IF NOT EXISTS`), with the last id handed out; the tables are free of double bookings |
| BookingApi.Clinic.GetAvailableSlots | backend/main.py:99-150 | the endpoint's answer equals `AvailableSlots` of the tables |
| BookingApi.Clinic.BookAppointment | backend/main.py:172-224 | a failing check returns its error and changes nothing; otherwise the next row id is handed out and one confirmed record appended; the tables stay free of double bookings |
| Conversation.FirstContained | AI_tool_dev/conversation_flow.py:89-94 | the first keyword, in list order, that occurs in the text; none iff no keyword occurs |
| Conversation.FindDateKeyword | AI_tool_dev/conversation_flow.py:89-94 | the loop with `break` finds exactly the first date keyword contained |
| Conversation.TimeMatch | AI_tool_dev/conversation_flow.py:99-102 | the time pattern matches iff the text holds a digit; the hour is 1-2 digits, a minute 2 digits, a period "am" or "pm" |
| Conversation.TimeMatchSpec | AI_tool_dev/conversation_flow.py:99-106 | `re.search` takes the leftmost, greedy match: the hour is the text's first digit and the next one when that is a digit too; the minute is present iff a colon and two digits follow the whitespace after the hour, and is those digits; the period is "am" or "pm" iff that word follows the next whitespace, "am" tried first |
| Conversation.SpokenTimeExample | AI_tool_dev/conversation_flow.py:97-106 | the lowered "Tomorrow at 4 PM" matches hour "4", no minute and "pm" |
| Conversation.SpokenTimeString | AI_tool_dev/conversation_flow.py:103-106 | those groups give the stored time "4:00 pm" |
| Conversation.TimeStringShape | AI_tool_dev/conversation_flow.py:103-106 | the stored time is hour:minute (minute "00" when missing), followed by " am"/" pm" only when said |
| Conversation.LastSomeSpec | AI_tool_dev/conversation_flow.py:111-118 | an overwrite-on-every-hit loop keeps the last hit, with no hit after it; none iff there is no hit |
| Conversation.LastNameSpec | AI_tool_dev/conversation_flow.py:108-118 | the name kept is that of the last pattern that yields a word, no later pattern yields one, and it is a single word |
| Conversation.FindName | AI_tool_dev/conversation_flow.py:110-118 | the pattern loop computes exactly the last name found |
| Conversation.NameAfterSpec | AI_tool_dev/conversation_flow.py:112-116 | a pattern yields the first whitespace-separated word between its first occurrence and its next one (or the end), and nothing when that stretch holds no word; this is `text.split(pattern)[1].split()[0]` |
| Conversation.FirstWordSplit | AI_tool_dev/conversation_flow.py:116 | the first word is `split()[0]`, and there is none iff `split()` is empty |
| Conversation.InformationReply | AI_tool_dev/conversation_flow.py:141-152 | hours words give the hours reply; the location reply iff no hours word but a location word; the contact reply iff neither of those but a contact word; the fallback reply iff none of the three groups |
| Conversation.InitialRequest | AI_tool_dev/conversation_flow.py:65-80 | entries unchanged and a reply always given; appointment keywords start booking; otherwise INFORMATION_GATHERING or the same state |
| Conversation.AppointmentTurn | AI_tool_dev/conversation_flow.py:82-139 | the entries become the gathered ones; the reply is always given; the state closes or stays, and closes only with date, time and name present |
| Conversation.GeneralQuery | AI_tool_dev/conversation_flow.py:154-164 | entries unchanged and a reply always given; the state closes or stays |
| Conversation.Process | AI_tool_dev/conversation_flow.py:40-63 | the turn fails iff the state is INFORMATION_GATHERING; only a booking turn changes the entries; the next state is the same, booking, information or closing |
| Conversation.StateValueInjective | AI_tool_dev/conversation_flow.py:11-19 | distinct states have distinct values |
| Conversation.GreetingStep | AI_tool_dev/conversation_flow.py:65-80 | appointment keywords win and start booking; info keywords alone move to INFORMATION_GATHERING with the info reply; otherwise the state stays; entries never change |
| Conversation.InformationGatheringFails | AI_tool_dev/conversation_flow.py:59-60 | every input in INFORMATION_GATHERING fails with the missing handler and changes nothing |
| Conversation.EntriesSetOnce | AI_tool_dev/conversation_flow.py:89-118 | a date, time or name already present is kept; phone and reason are never touched |
| Conversation.EntriesFilled | AI_tool_dev/conversation_flow.py:89-118 | a missing date becomes the first date keyword found, a missing time the spoken time, a missing name a single word; with nothing found they stay missing |
| Conversation.WithDateSpec | AI_tool_dev/conversation_flow.py:89-94 | the date step sets the date iff it is missing and a keyword is found, and touches nothing else |
| Conversation.WithTimeSpec | AI_tool_dev/conversation_flow.py:96-106 | the time step sets the time iff it is missing and the pattern matches, and touches nothing else |
| Conversation.WithNameSpec | AI_tool_dev/conversation_flow.py:108-118 | the name step touches only the name, and a name it sets is one word |
| Conversation.ClosingOnlyWhenComplete | AI_tool_dev/conversation_flow.py:120-139 | the booking handler closes iff date, time and name are all present afterwards; with date and time but no name it asks for the name; otherwise the state stays |
| Conversation.GeneralQuerySpec | AI_tool_dev/conversation_flow.py:154-164 | "thank" closes with the thanks reply, else "bye" closes with goodbye, else the help reply and the state stays; the second test of each pair is subsumed |
| Conversation.GeneralStep | AI_tool_dev/conversation_flow.py:62-63 | in the other states "thank"/"bye" closes and anything else keeps the state; entries never change |
| Conversation.ConversationManager.constructor | AI_tool_dev/conversation_flow.py:25-34 | starts in GREETING with all five entries unset and an empty context |
| Conversation.ConversationManager.GetGreeting | AI_tool_dev/conversation_flow.py:36-38 | the fixed greeting text |
| Conversation.ConversationManager.ProcessUserInput | AI_tool_dev/conversation_flow.py:40-63 | the new state, entries and reply are those `Process` gives for the lowered, stripped text; the context is unchanged |
| Conversation.ConversationManager.HandleInitialRequest | AI_tool_dev/conversation_flow.py:65-80 | state and reply as the initial-request rules give them; entries and context unchanged |
| Conversation.ConversationManager.GatherDate | AI_tool_dev/conversation_flow.py:89-94 | the entries become `WithDate` of the old ones; nothing else changes |
| Conversation.ConversationManager.GatherTime | AI_tool_dev/conversation_flow.py:96-106 | the entries become `WithTime` of the old ones; nothing else changes |
| Conversation.ConversationManager.GatherName | AI_tool_dev/conversation_flow.py:108-118 | the entries become `WithName` of the old ones; nothing else changes |
| Conversation.ConversationManager.HandleAppointmentBooking | AI_tool_dev/conversation_flow.py:82-139 | state, entries and reply as the booking turn defines them; context unchanged |
| Conversation.ConversationManager.HandleGeneralQuery | AI_tool_dev/conversation_flow.py:154-164 | state and reply as the general-query rules give them; entries and context unchanged |
| Conversation.ConversationManager.Reset | AI_tool_dev/conversation_flow.py:166-176 | back to GREETING, all entries unset, empty context |
| Conversation.ConversationManager.GetTranscriptSummary | AI_tool_dev/conversation_flow.py:178-184 | the state's value, the entries and the context |
| VoiceUtils.FormatPhoneNumber | AI_tool_dev/utils.py:18-39 | the result starts with "+"; a number with "+" is kept; otherwise "+" and digits only, "+1" before exactly ten digits |
| VoiceUtils.ValidatePhoneNumber | AI_tool_dev/utils.py:42-59 | accepted iff the text holds 10 to 15 digits, whatever else it holds; an accepted text is at least ten characters long |
| VoiceUtils.FormatIdempotent | AI_tool_dev/utils.py:18-39 | formatting a formatted number changes nothing |
| VoiceUtils.FormatKeepsValidity | AI_tool_dev/utils.py:29-59 | formatting never changes whether the 10-15 digit check passes |
| VoiceUtils.TruncatedCollapsed | AI_tool_dev/utils.py:77-81 | a prefix of collapsed text followed by "..." is still collapsed |
| VoiceUtils.SanitizeText | AI_tool_dev/utils.py:62-83 | empty or missing text gives ""; otherwise whitespace runs are single spaces with no spaces at the ends, longer text is cut to `max_length` plus "..." |
| VoiceUtils.DefaultSanitizeBound | AI_tool_dev/utils.py:62-83 | with the default `max_length` of 500 the result has at most 503 characters |
| LiveVoice.StartOf | services/geminiService.ts:135 | a chunk starts no earlier than the cursor and no earlier than the clock, at one of the two |
| LiveVoice.CursorAfter | services/geminiService.ts:131-157 | an interruption leaves the cursor at 0; else a played chunk moves it to the chunk's end; else it stays |
| LiveVoice.UninterruptedNoOverlap | services/geminiService.ts:135-147 | without interruptions, scheduled chunks never overlap, start no earlier than the cursor, end by the final cursor |
| LiveVoice.AheadOfClockGapless | services/geminiService.ts:135-147 | when each chunk arrives no later than the cursor its predecessors leave, the chunks play back to back, the first at the cursor |
| LiveVoice.AfterInterruption | services/geminiService.ts:155-157 | after an interruption the next chunk starts at its arrival clock |
| LiveVoice.ActiveIffLoud | services/geminiService.ts:113-115 | the block is active iff it is non-empty and the absolute sum exceeds 0.01 per sample |
| LiveVoice.QuietIsInactive | services/geminiService.ts:113-115 | a block whose samples are all at most 0.01 in size is reported as silence |
| LiveVoice.TranscriptEvents | services/geminiService.ts:163-176 | at most two final, non-empty lines; a user line first iff input text is present, a model line last iff output text is present; a user line carries the input text and a model line the output text |
| LiveVoice.Bytes | services/geminiService.ts:179-187 | one byte per character; codes below 256 are kept |
| LiveVoice.DecodedBytes | services/geminiService.ts:179-187 | the loop fills a new array with exactly `Bytes` of the decoded string |
| LiveVoice.Releases | services/geminiService.ts:195-199 | the stream and input source are released iff set; at most five handles |
| LiveVoice.CleanupAgain | services/geminiService.ts:194-205 | a second cleanup can release only the input source again, the one handle the first leaves set |
| LiveVoice.LiveVoiceManager.constructor | services/geminiService.ts:43-51 | no handles, cursor 0, empty logs |
| LiveVoice.LiveVoiceManager.Connect | services/geminiService.ts:53-101 | reports CONNECTING, then ERROR when an audio context or the microphone throws; each handle is set iff its step and the earlier ones ran, and the session is stored iff all three succeed; no cleanup on failure |
| LiveVoice.LiveVoiceManager.OnOpen | services/geminiService.ts:77-80 | reports CONNECTED and starts streaming |
| LiveVoice.LiveVoiceManager.StartAudioStreaming | services/geminiService.ts:104-126 | with an input context and a stream, sets the source and processor; otherwise nothing changes |
| LiveVoice.LiveVoiceManager.OnAudioProcess | services/geminiService.ts:110-122 | reports the block's activity, then appends the block to what is sent |
| LiveVoice.LiveVoiceManager.HandleServerMessage | services/geminiService.ts:128-177 | the cursor becomes `CursorAfter`; a played chunk is logged at `StartOf(cursor, clock)` with activity true; then the transcript lines |
| LiveVoice.LiveVoiceManager.OnPlaybackEnded | services/geminiService.ts:149-151 | reports activity false |
| LiveVoice.LiveVoiceManager.Release | services/geminiService.ts:195-199 | a handle is logged as released iff it is set |
| LiveVoice.LiveVoiceManager.Cleanup | services/geminiService.ts:194-205 | releases the set handles in order, then clears all but the input source and the session |
| LiveVoice.LiveVoiceManager.OnClose | services/geminiService.ts:84-87 | reports DISCONNECTED, then cleans up |
| LiveVoice.LiveVoiceManager.OnError | services/geminiService.ts:88-92 | reports ERROR, then cleans up |
| LiveVoice.LiveVoiceManager.Disconnect | services/geminiService.ts:189-192 | cleans up, then reports DISCONNECTED, from any state |
| SlotSuggestion.FreeSlots | app.py:60 | a time is listed iff some row with that time is unoccupied |
| SlotSuggestion.SortByKey | app.py:61 | the sort returns as many elements as it gets, and the same ones (as a multiset) |
| SlotSuggestion.InsertElements | app.py:61 | inserting adds the element and keeps all others |
| SlotSuggestion.InsertSorted | app.py:61 | inserting into a list sorted by probability keeps it sorted |
| SlotSuggestion.SortSorted | app.py:61 | the sort returns a permutation of its input, ascending by probability (1 when missing) |
| SlotSuggestion.SortStable | app.py:61 | for every key, the elements with that key keep their input order |
| SlotSuggestion.SuggestBestSlots | app.py:59-62 | `top_n` suggestions, or all the free slots when there are fewer |
| SlotSuggestion.SuggestFree | app.py:59-62 | the suggestions are some of the free slots (as a multiset) |
| SlotSuggestion.SuggestLowestFirst | app.py:59-62 | the suggestions ascend by probability and no free slot left out has a lower one |
| SlotSuggestion.DefaultAtMostThree | app.py:74 | at most three slots are suggested |
| SlotSuggestion.MarkBooked | app.py:90 | every row with that time becomes occupied; the others are unchanged |
| SlotSuggestion.BookedNeverSuggested | app.py:86-93 | a booked slot is never suggested afterwards, whatever the probabilities |
| SlotSuggestion.BestSlotIsFree | app.py:82 | with distinct times, a row flagged `best_slot` is unoccupied |
| SlotSuggestion.ApiData | app.py:71-84 | one table row per slot row in order: time, occupied, probability (0.0 when missing), and the flag iff the time is suggested |
| SlotSuggestion.SlotTable.constructor | app.py:29 | the table holds the loaded rows |
| SlotSuggestion.SlotTable.BookSlot | app.py:86-93 | a present slot marks every row with that time occupied and succeeds; otherwise "Slot not found" and the table is unchanged |
| Navigation.ModeView | App.tsx:148-149 | "LOGIN" shows the login form and anything else the registration form |
| Navigation.NavigateSpec | App.tsx:15-22 | a signed-out user asking for the dashboard is sent to login, everyone else to the screen asked for; sign-in never changes |
| Navigation.AuthHandlersSpec | App.tsx:24-32 | sign-in and sign-out land on the home screen with the new sign-in state; switching modes keeps the sign-in |
| Navigation.DashboardOnlyByNavigation | App.tsx:15-32 | the dashboard shows after a call iff a signed-in user navigated to it |
| Navigation.AuthOnlyByHandlers | App.tsx:15-32 | only sign-in and sign-out change who is signed in |
| Navigation.ApplyGuarded | App.tsx:15-32 | every handler keeps "dashboard only when signed in" |
| Navigation.RunGuarded | App.tsx:12-32 | no sequence of handler calls shows the dashboard to a signed-out user |
| Navigation.App.constructor | App.tsx:12-13 | starts on the home screen, signed out |
| Navigation.App.NavigateTo | App.tsx:15-22 | the new state is `NavigateTo` applied to the old |
| Navigation.App.HandleAuthSuccess | App.tsx:24-27 | signed in, on the home screen |
| Navigation.App.HandleLogout | App.tsx:29-32 | signed out, on the home screen |
| Navigation.App.SwitchMode | App.tsx:149 | the view becomes the form the mode names; sign-in unchanged |

## Left out

- Python's `\d`, `str.isdigit`, `int()` and `str.lower` are modelled on ASCII digits and letters only. `int()` also accepts other Unicode decimal digits; those are not modelled. Whitespace is Python's `str.isspace` set of characters.
- I/O is abstracted:
  - the SQLite tables become in-memory sequences;
  - the clock (`datetime.now`) and `strptime` become the `Env` parameter;
  - the current audio time and each decoded chunk's duration become parameters;
  - the row id is the table's last id plus one.
- Chatbot.ValidateDate: the generic `except Exception` path (`backend/chatbot.py:62-63`) cannot occur in the model, because `strptime` failures are `None` values.
- The chatbot's replies are a `Reply` datatype with their exact texts (`Chatbot.ReplyText`). The `get_session_data` accessor is not modelled.
- `Chatbot.Step` uses the phone, date and time branches of `extract_info` directly (`Chatbot.ExtractPhone`, `ExtractDate`, `ExtractTime`), as `process_message` calls them.
- Some parts of `backend/main.py` are not modelled:
  - the `/chat` endpoint, `get_doctors`, `get_doctor`, `get_appointments`, `send_notification` and the server start-up;
  - FastAPI's request validation, which runs before a handler and is modelled separately by `Models.ValidateAppointment`;
  - the fixed `success`/`message` fields of the booking reply;
  - the text a 500 error appends after its detail prefix.
- BookingApi.Clinic.constructor: the stored appointments are taken to be free of double bookings, as `book_appointment` leaves them; rows written to the database by other means are not modelled.
- An empty separator in `str.split` (a `ValueError`) cannot arise: the separators used are fixed, non-empty strings.
- `predict_no_show` (a trained model, with rounding to two places) is left out; the probabilities are an input map. The Flask routing and the start-up file checks are left out. The table is loaded once as the array given to `SlotTable`.
- JavaScript numbers are modelled as exact reals; `0/0` (NaN) for an empty audio block is modelled as "not active".
- Audio and network objects are reduced to whether each handle is set. What is not modelled:
  - PCM encoding (`createPcmBlob`) and `decodeAudioData`;
  - the session configuration;
  - the asynchronous order of promise callbacks (messages and audio callbacks are taken one at a time);
  - the `Date.now()` ids of transcript items.
- LiveVoice.LiveVoiceManager.Connect: handles replaced by a second `connect` are not tracked, so a leak of the old ones is not visible. An interruption does not stop chunks that are already playing; the model keeps only the cursor.
- The conversation manager's `context` dictionary is never written by the source, so it is modelled as a map that only `reset` clears.
- The chat text service of the front end (`sendChatMessage`) calls a remote model and is left out.
- `types.ts` contributes types only: `AppView`, `ConnectionState` and `TranscriptItem` without its id.

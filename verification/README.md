# Verified model of the admissions bot

A WhatsApp bot answers questions about courses, books calls with counselors and mirrors the
bookings to a spreadsheet; a web console lets agents take conversations over. This project models
the parts of it where state, time and concurrency meet, and proves what they promise over every
input and every run. `dafny verify dfyconfig.toml` checks all of it.

| part | files |
|---|---|
| Callback scheduler: dates, opening hours, the reader and the printer of callback times | `Calendar.dfy`, `TimeText.dfy`, `CallbackTime.dfy`, `SchedulingLaws.dfy`, `TimeMeaning.dfy` (each pattern, and where it stands), `ReplyMeaning.dfy` (what a reply means), `PrintedText.dfy`, `DisplayRoundTrip.dfy`, `PrintedMeaning.dfy` |
| Conversation machine and lead capture | `Domain.dfy`, `Funnel.dfy` (what a turn does, as a function), `ConversationMachine.dfy` (the handlers that assign state step by step, proved to do exactly that), `FunnelLaws.dfy`, `CaptureLaws.dfy`, `FunnelMap.dfy`, `EngagementLaws.dfy`, `InputLaws.dfy` (what every button, command and reply does outside a form), `FormLaws.dfy` (what every reply to a form does), `FunnelRuns.dfy`, `RunLaws.dfy` (what one message leaves for the next), `LeadRowLaws.dfy` (where the fields of a row come from) |
| Inbound turns | `ConversationService.dfy` (one after another, proved to be the steps of `FunnelRuns`), `InboundTurns.dfy` (interleaved deliveries over unique indexes and row locks), `TurnLaws.dfy` (what each delivery comes to) |
| Optimistic toggle of the console | `Handover.dfy` (the reducer), `ConsoleProtocol.dfy` (console, server and a reordering network), `Inbox.dfy` (the component's callbacks) |
| Rate limiter | `RateLimit.dfy` |
| Inactivity sweeper | `Inactivity.dfy` |
| Lead table and spreadsheet | `LeadSync.dfy` |
| Knowledge retrieval | `Retriever.dfy`, `RetrievalLaws.dfy` (what a score means and what a query gets) |

How the parts connect. A message is an arbitrary record of facts: what the lexicons and the
extractors say about it, which button was tapped, and its text, which only the callback-time
reader looks into, character by character. `Funnel.Handle` gives the next world and the replies;
`ConversationMachine.TurnContext.Handle` is the imperative machine and equals it;
`ConversationService` runs it inside the turn; every message it takes, answered, paused or blocked,
equals a step of `FunnelRuns`, whose invariant spans all contacts, all their conversations and the
lead table, and the service keeps that invariant. Clocks are parameters. Moments are
wall-clock days and microseconds in the business timezone; a lead's identifier is its place in
the table, since nothing deletes leads.

What the proofs found in the code, kept as it is:

* The time lexicon looks for "noon" before "afternoon", so its 14:00 entry is never reached
  (`SchedulingLaws.AfternoonIsNeverReached`).
* "As soon as possible" drops the seconds when it rounds, and so may undershoot the lead time by
  less than a minute; and it skips the horizon, although the module's documentation has every slot
  validated (`SchedulingLaws.AsapCanOvershoot`). Exactly when are `SchedulingLaws.AsapUndershoots`
  and `SchedulingLaws.AsapOvershoots`.
* A printed slot more than 59 days ahead may read back as another day; exactly when is
  `DisplayRoundTrip.DisplayRoundTrips`.
* Suggested times are not checked against the opening hours; they are always acceptable exactly
  when the office opens by 11:30 and closes at 17:00 or later (`SchedulingLaws.SuggestionsAreAcceptable`).
* A tap on the question button of an old discount card leaves a half-filled form, although the
  machine's comments say a stray tap must not (`CaptureLaws.OnlyOfferQuestionLeavesCapture`).
* Any integrity error is taken for a redelivery that is being answered; one on the contact's phone
  can lose a first message (`InboundTurns.FirstMessageCanBeLost`). It is always a redelivery exactly
  for contacts that have their row (`InboundTurns.ErrorsAreRedeliveriesExactlyWhen`).
* The thread fetch that opening a conversation makes records the epoch of the last render, so its
  pause flag is never taken; a list row that is out of date is shown until the next poll, and then
  flips without a click (`ConsoleProtocol.OpeningFetchIsNeverTaken`, `ConsoleProtocol.StaleRowFlips`;
  exactly when is `ConsoleProtocol.NoFlipBack`).
* The toggle looks at what was rendered: a click between a confirmation and the next render asks the
  server for the opposite of what it shows, and its answer flips it back
  (`ConsoleProtocol.UnrenderedClickFlipsBack`, exactly when is `ConsoleProtocol.ClickMustSeeWhatIsShown`).
  Two clicks before a render send two requests (`ConsoleProtocol.DoubleClickSendsTwo`, exactly when
  is `ConsoleProtocol.SecondRequestExactlyWhen`).
* A confirmation is not checked against the conversation that is open by then
  (`ConsoleProtocol.LateConfirmationLeaks`, exactly when it misleads is
  `ConsoleProtocol.LateConfirmationMisleads`).
* Whatever fetch returns clears the flag, so opening a conversation during a poll lets two polls
  overlap (`Inbox.IncrementalsCanOverlap`, exactly when is `Inbox.IncrementalsOverlapExactlyWhen`).
* A header that could not be written is not tried again until a restart, and then written over the
  first lead; a row is appended beside its own when the identifier column cannot be read
  (`LeadSync.HeaderFailureErasesALead`, `LeadSync.UnreadableColumnLeavesOldTime`; exactly when a sync
  does harm is `LeadSync.SyncKeepsMirrorExactlyWhen`).
* The fallback of the retriever does not ask whom a snippet is for, although content for one side must
  never reach the other (`RetrievalLaws.FallbackCrossesSides`, exactly when is
  `RetrievalLaws.AudienceIsKeptExactlyWhen`).
* Snippets that share an identifier can turn an inverse document frequency negative, which the
  comment on the formula excludes (`Retriever.RepeatedIdTurnsNegative`, exactly when is
  `Retriever.KeywordRetriever.IdfIsNeverNegativeExactlyWhen`).

## Model

| member | source | states |
|---|---|---|
| Calendar.DateOf | app/services/scheduling/callback_time.py:319-330 | day ordinals and Gregorian dates are inverse to each other |
| Calendar.OrdinalOrder | app/services/scheduling/callback_time.py:319-330 | comparing dates and comparing ordinals agree |
| Calendar.MomentOrder | app/services/scheduling/callback_time.py:235-248 | comparing wall-clock moments is comparing instants |
| CallbackTime.NextWeekday | app/services/scheduling/callback_time.py:332-339 | a named weekday means a day one to seven days ahead |
| CallbackTime.OpenDayFrom | app/services/scheduling/callback_time.py:341-359 | the first open day among those looked at |
| CallbackTime.Validator.FindNextOpenSlot | app/services/scheduling/callback_time.py:423-436 | sixty steps of the moving cursor always reach the earliest bookable moment |
| CallbackTime.Validator.FirstPreferred | app/services/scheduling/callback_time.py:223-228 | the first of the fixed times of a day that respects the lead time |
| CallbackTime.Validator.SuggestSlots | app/services/scheduling/callback_time.py:212-230 | the suggestion loop builds the specified suggestions |
| CallbackTime.Validator.ResolveImplicitDate | app/services/scheduling/callback_time.py:341-359 | today if still reachable, else the next open day |
| CallbackTime.Validator.NextOpenDayIsOpen | app/services/scheduling/callback_time.py:341-359 | with one open weekday an open day is at most six days away |
| CallbackTime.Validator.EarliestIsBookable | app/services/scheduling/callback_time.py:423-436 | the slot found is open, in hours and not before the start |
| CallbackTime.Validator.EarliestIsLeast | app/services/scheduling/callback_time.py:423-436 | no bookable moment is skipped |
| SchedulingLaws.RoundUpIsLeastHalfHour | app/services/scheduling/callback_time.py:443-450 | rounding gives the least half hour at or after the whole minute |
| SchedulingLaws.NextOpenSlotIsEarliest | app/services/scheduling/callback_time.py:423-450 | the earliest slot is bookable, least, and less than a minute short of the lead time at worst |
| SchedulingLaws.AsapUndershoots | app/services/scheduling/callback_time.py:171-173 | exactly when "asap" undershoots the lead time |
| SchedulingLaws.AsapOvershoots | app/services/scheduling/callback_time.py:423-450 | "asap" overshoots the horizon exactly when the office takes no call from the rounded lead time to the horizon's end, and never with nine days between them |
| SchedulingLaws.AsapIsAcceptableExactlyWhen | app/services/scheduling/callback_time.py:171-173 | its slot would pass the validation it skips exactly when it neither undershoots nor overshoots |
| SchedulingLaws.AsapCanOvershoot | app/services/scheduling/callback_time.py:171-173 | a setting and a moment at which it is past the horizon |
| SchedulingLaws.ParsedSlotIsSound | app/services/scheduling/callback_time.py:151-254 | every accepted slot is open and in hours, and within lead time and horizon, except that "asap" may leave them, exactly when is stated; every rejection offers the suggestions and a reason that is true of the moment asked for, or says that no time was named |
| SchedulingLaws.AfternoonIsNeverReached | app/services/scheduling/callback_time.py:361-396 | the afternoon entry of the lexicon is shadowed by noon |
| SchedulingLaws.DayMonthIsAhead | app/services/scheduling/callback_time.py:319-330 | a day and month mean their next occurrence |
| SchedulingLaws.NamedDayIsAhead | app/services/scheduling/callback_time.py:259-339 | unless a year is written out, a named day is not past and at most a year ahead |
| SchedulingLaws.BareHourFitsOpening | app/services/scheduling/callback_time.py:408-421 | a bare hour is read so that it falls in opening hours if either reading does |
| SchedulingLaws.SuggestionsShape | app/services/scheduling/callback_time.py:212-230 | always three suggestions, on strictly rising open days |
| SchedulingLaws.SuggestionsAreAcceptable | app/services/scheduling/callback_time.py:212-248 | all suggestions are acceptable at every reference exactly when opening is by 11:30 and closing at 17:00 or later, given a horizon of lead time plus 23 days |
| SchedulingLaws.SuggestionsFitWideHours | app/services/scheduling/callback_time.py:212-248 | with such hours each suggestion passes validation |
| SchedulingLaws.RefusedSuggestion | app/services/scheduling/callback_time.py:217-228 | with other hours, a reference whose suggestions are refused |
| SchedulingLaws.ImplicitDateAccepted | app/services/scheduling/callback_time.py:341-359 | the implied day is acceptable and the earliest that is |
| SchedulingLaws.TimeOnlyIsBooked | app/services/scheduling/callback_time.py:186-197 | a bare time in opening hours is never rejected and lands on the earliest acceptable day |
| TimeText.SearchFinds | app/services/scheduling/callback_time.py:361-396 | a pattern search returns the leftmost match |
| TimeMeaning.MarksMean | app/services/scheduling/callback_time.py:120-131 | what the patterns are made of: word edges, white space, figures and literals, character by character |
| TimeMeaning.NumberIsValue | app/services/scheduling/callback_time.py:297 | a run of figures is read as its value |
| TimeMeaning.MonthsAre | app/services/scheduling/callback_time.py:100-105 | the names and short forms of each month |
| TimeMeaning.NumericExact | app/services/scheduling/callback_time.py:125 | a date in figures is found exactly where the pattern stands first: day, month and, when there is one, year |
| TimeMeaning.DayMonthExact | app/services/scheduling/callback_time.py:126-128 | so is a day before the name of a month |
| TimeMeaning.MonthDayExact | app/services/scheduling/callback_time.py:129-131 | so is a day after it |
| TimeMeaning.HourMinuteExact | app/services/scheduling/callback_time.py:120 | so are hour and minutes, with the half of the day that follows them or, when none does, without |
| TimeMeaning.HourHalfExact | app/services/scheduling/callback_time.py:121 | so is an hour with its half of the day |
| TimeMeaning.OClockExact | app/services/scheduling/callback_time.py:122 | so is an o'clock hour |
| TimeMeaning.BareHourExact | app/services/scheduling/callback_time.py:123 | so is an hour after a preposition |
| ReplyMeaning.StripTrims | app/services/scheduling/callback_time.py:166 | the text read is the reply without the white space around it |
| ReplyMeaning.DayMonthMeansComing | app/services/scheduling/callback_time.py:319-330 | a day and month mean the first such day from today on, this year or the next, if this year has one |
| ReplyMeaning.WeekdayNamedMeans | app/services/scheduling/callback_time.py:90-98 | the weekday named, by any of its names and short forms; of several the first of the week |
| ReplyMeaning.WeekdaysRun | app/services/scheduling/callback_time.py:332-339 | weekdays follow one another, and 1 January 2024 is a Monday |
| ReplyMeaning.DayIsNamed | app/services/scheduling/callback_time.py:259-339 | the parser finds a day exactly when the reply names it: two days ahead, tomorrow, today, by figures, by month and day, by the next such weekday, in this order, each with its words |
| ReplyMeaning.TimeIsNamed | app/services/scheduling/callback_time.py:361-421 | it finds a time exactly when the reply names it: hour and minutes, an hour with its half of the day, an o'clock hour, a vague word at its own hour, an hour after a preposition, a lone number; hours without a half are read by opening hours |
| ReplyMeaning.ReplyMeans | app/services/scheduling/callback_time.py:151-254 | what any reply comes to, said without the parser: not understood, the next open slot, or the day and time it names, booked if open, in hours, after the lead time and within the horizon, else refused for the first reason that is true |
| ReplyMeaning.AcceptedReplyFalls | app/services/scheduling/callback_time.py:151-197 | an accepted reply falls on the day its words give, and at the hour of its vague word when it has no clock time |
| ReplyMeaning.SuggestionsAreNext | app/services/scheduling/callback_time.py:212-230 | the suggestions: the first time of the next open slot's day that the lead time allows, then 11:30 on one open day after the other, three in all |
| PrintedMeaning.DisplaySays | app/services/scheduling/callback_time.py:54-64 | the text shown for a slot names the weekday of its day and its time, and names its day exactly while the day and month still name it |
| PrintedText.CleanedDisplay | app/services/scheduling/callback_time.py:54-64 | the printed slot, stripped and lowered, is spelled piece by piece |
| PrintedText.NoEarlierReading | app/services/scheduling/callback_time.py:171-175 | printed text contains no relative day and no "asap" word |
| DisplayRoundTrip.TimeReadsBack | app/services/scheduling/callback_time.py:361-396 | the printed hour and minute read back |
| DisplayRoundTrip.DateReadsBack | app/services/scheduling/callback_time.py:259-330 | the printed day and month read back as the date they name, else the weekday does |
| DisplayRoundTrip.DisplayRoundTrips | app/services/scheduling/callback_time.py:54-197 | printing an acceptable whole-minute moment and parsing the text gives it back exactly when its day and month still name it |
| DisplayRoundTrip.DisplayRoundTripsInHorizon | app/services/scheduling/callback_time.py:54-197 | with a horizon of at most 59 days it always does |
| DisplayRoundTrip.SixtyDaysAreTooMany | app/services/scheduling/callback_time.py:319-330 | a moment sixty days ahead that does not read back |
| Funnel.UpcomingAmong | app/repositories/lead_repository.py:106-133 | an open booking of the number that is the earliest one, or none when there is none |
| ConversationMachine.LeadRepository.FindUpcomingCallback | app/repositories/lead_repository.py:106-133 | the scan finds the earliest open booking |
| ConversationMachine.LeadRepository.ListPendingSync | app/repositories/lead_repository.py:67-86 | the oldest rows that are pending, failed or skipped, up to the limit |
| ConversationMachine.MissingDetailIsFirst | app/bot/handlers/capture.py:164-179 | the missing slots are the identifying details in asking order and the time last |
| ConversationMachine.TurnContext.MissingSlots | app/bot/handlers/capture.py:164-179 | a known name counts as given; the rest that is required and empty is listed |
| ConversationMachine.TurnContext.NextQuestion | app/bot/handlers/capture.py:192-240 | the next question, its state, and the phone asked once |
| ConversationMachine.TurnContext.MaybeOffer | app/bot/handlers/offer.py:83-118 | the discount is shown at the right course and moment, once |
| ConversationMachine.TurnContext.GlobalCommand | app/bot/machine.py:133-188 | commands in their order, suppressed during capture |
| ConversationMachine.TurnContext.Handle | app/bot/machine.py:41-69 | one turn is exactly the specified turn, for every conversation, contact, lead table and message; a sound conversation stays sound and leads are written by the rule |
| InputLaws.MediaTurn | app/bot/machine.py:73-103 | media change nothing but for an image after the pay link, which marks a payment |
| InputLaws.OfferTap | app/bot/handlers/offer.py:121-169 | each button of the discount card, in a form or not: what it changes and nothing else |
| InputLaws.MenuTap | app/bot/machine.py:230-275 | each menu button outside a form: state, course, lead type, counters and replies after it |
| InputLaws.CourseTap | app/bot/machine.py:237-299 | each course button outside a form |
| InputLaws.Command | app/bot/machine.py:133-208 | each typed command and their order; moving a booking and asking for a counselor with and without one |
| InputLaws.BookingBegins | app/bot/handlers/common.py:141-171 | a booking begins with the first thing missing: name, a student's email and course, the number once, the time |
| InputLaws.UpcomingIsNext | app/repositories/lead_repository.py:106-133 | the booking found is the contact's earliest open one, of two at the same time the older row |
| InputLaws.HelpCheckReply | app/bot/handlers/support.py:136-178 | "please call me", the no button, begins a student's booking; "that helped", the yes button, goes back to support with nothing counted; else the reply is another question |
| InputLaws.SupportReply | app/bot/handlers/support.py:106-133 | a support question is answered and followed by the check, or a person is called for |
| InputLaws.SupportMenuReply | app/bot/handlers/support.py:65-103 | a topic is remembered, a question answered, else the menu again |
| InputLaws.EnrollmentReply | app/bot/handlers/support.py:22-62 | paid, free, or by the course named, which is remembered |
| InputLaws.CallOfferReply | app/bot/handlers/callback.py:54-84 | yes begins a booking, no resumes, anything else is a question answered there |
| InputLaws.MoveReply | app/bot/handlers/callback.py:480-526 | another booking, a new time for this one, or asked again |
| InputLaws.CourseGroupReply | app/bot/handlers/courses.py:14-89 | every reply at the course groups |
| InputLaws.CourseSelectionReply | app/bot/handlers/courses.py:58-138 | every reply at the course list |
| InputLaws.MainMenuReply | app/bot/handlers/menu.py:54-115 | every reply at the main menu |
| InputLaws.FirstReply | app/bot/handlers/menu.py:15-51 | every reply to a conversation that begins or is over |
| InputLaws.CourseQuestion | app/bot/handlers/courses.py:154-167 | a question about a course: the course, what is remembered of the contact, and whether discount or call go with the answer |
| InputLaws.GeneralQuestion | app/bot/handlers/courses.py:170-178 | a general question, which naming a course makes one about it |
| InputLaws.BrowsingQuestion | app/bot/handlers/discovery.py:71-148 | a question while looking around, on the course named, kept or to be sold |
| FormLaws.FormReply | app/bot/handlers/callback.py:87-381 | every reply to every question of a form: what it fills, how often it may be asked again, what is asked next, and what is written |
| FormLaws.FormGoesOn | app/bot/handlers/capture.py:192-240 | after a detail comes the next open question, and the row when none is left |
| FormLaws.WrittenIsWriteLead | app/bot/handlers/callback.py:326-381 | the row is written field by field, and the form put away |
| LeadRowLaws.OnlyFormsFill | app/bot/handlers/capture.py:87-139 | no turn outside a form writes a lead or fills a detail, but for the course enrolled in |
| LeadRowLaws.SlotsAreFilled | app/bot/handlers/capture.py:87-139 | after every turn email, number and course are what they were, or if open what this message gave for them |
| LeadRowLaws.NewRowIsAsCollected | app/bot/handlers/callback.py:326-352 | every field of a row that a turn adds: name, time and wording pending, the note or none, number, email, course, profile and topic |
| LeadRowLaws.DetailsAreTheFirstHeard | app/bot/handlers/capture.py:87-139 | throughout a conversation its email is the first heard in it, and its number the first given, confirmed or left at the contact's own |
| LeadRowLaws.RowsAreFromTheirTalks | app/bot/handlers/callback.py:296-381 | in every run of all contacts, a row that a message adds is what its own conversation collected, with the first email and number heard there |
| FunnelLaws.CompleteIffNothingMissing | app/bot/handlers/capture.py:64-75 | the required slots are full exactly when no detail is missing and a time is pending |
| FunnelLaws.NextQuestionRule | app/bot/handlers/capture.py:192-240 | no question means a reschedule or nothing missing; a question leads to the state that asks it |
| FunnelLaws.CreateLeadKeeps | app/bot/handlers/callback.py:296-381 | finishing a ready capture writes exactly one lead by the rule |
| FunnelLaws.FinishCaptureKeeps | app/bot/handlers/callback.py:181-210 | a question answered leads to the next one or, with nothing missing, to one full lead |
| FunnelLaws.AskedNameKeeps | app/bot/handlers/callback.py:181-210 | whatever the reply to the name question, the form stays sound and a lead is written only by the rule |
| FunnelLaws.AskedDetailKeeps | app/bot/handlers/callback.py:126-178 | so do replies to the email and course questions, taken, retried or refused |
| FunnelLaws.AskedPhoneKeeps | app/bot/handlers/callback.py:97-123 | so does a reply to the phone question, also one that is no number and answers the next question |
| FunnelLaws.AskedRemarksKeeps | app/bot/handlers/callback.py:268-271 | the note ends the capture with one lead moved or written |
| FunnelLaws.StartCaptureKeeps | app/bot/handlers/common.py:141-171 | starting capture writes nothing and asks a question |
| FunnelLaws.StartRescheduleKeeps | app/bot/handlers/callback.py:457-526 | the booking taken up for moving is the contact's own, and nothing is written yet |
| FunnelLaws.StartOrOfferMoveKeeps | app/bot/machine.py:190-208 | a contact with a booking is asked first, which needs a known name; nothing is written |
| FunnelLaws.AskedMoveKeeps | app/bot/handlers/callback.py:480-507 | moving, booking another or asking again keeps the form sound |
| FunnelLaws.AskedCallbackKeeps | app/bot/handlers/callback.py:54-84 | accepting starts a sound form, declining resumes outside every form |
| FunnelLaws.NavigationKeeps | app/bot/machine.py:210-301 | no menu button breaks a form or touches a lead |
| FunnelLaws.CommandKeeps | app/bot/machine.py:133-188 | nor does any typed command |
| FunnelLaws.AskedTimeKeeps | app/bot/handlers/callback.py:213-265 | a time reply writes no lead and stays in capture |
| FunnelLaws.TurnKeeps | app/bot/machine.py:41-188 | every turn keeps the form invariant, writes leads by the rule, and holds only times the validator took |
| FunnelMap.TurnsFollowTheMap | app/bot/machine.py:41-188 | every turn follows the map of states: a form is entered at a question about the contact or the time, the note only after the time or phone question, a booking ends only a form, and the callback offer comes only while selling |
| FunnelMap.AnnouncedNameIsKept | app/bot/handlers/callback.py:420-451 | a name announced in a time reply becomes the contact's and the booking's, whether or not the time is taken, and otherwise neither changes |
| FunnelRuns.ActiveAmong | app/repositories/conversation_repository.py:23-46 | the newest open conversation of the contact |
| FunnelRuns.ContactIsRefreshed | app/repositories/user_repository.py:22-37 | a message refreshes the profile name when it brings one and changes nothing else of a contact |
| FunnelRuns.RunsAreSafe | app/services/conversation_service.py:125-224 | the invariant over contacts, conversations and leads holds in every run of answered, paused and blocked messages and of counselors' changes |
| FunnelRuns.EveryLeadIsFull | app/bot/handlers/capture.py:11-22 | every lead has a name and a time, a support lead also email and course, and the time was accepted in the conversation that wrote it, read with the day remembered there, which an earlier message of it had named |
| FunnelRuns.EveryLeadTimeIsBookable | app/bot/handlers/callback.py:323-346 | every lead's time is what the validator made of a message of that conversation and the day remembered then; it is in opening hours and lay ahead of that message |
| FunnelRuns.ConversationsWriteOnce | app/services/conversation_service.py:220-221 | a conversation writes at most one lead in its life, and a stored reschedule target always exists and is the contact's |
| FunnelRuns.MessagesWriteByTheRule | app/bot/handlers/callback.py:510-568 | a finishing reschedule adds no lead and changes only that lead's time and sync state; otherwise one row is added or none |
| RunLaws.OneConversationEach | app/repositories/conversation_repository.py:23-46 | in every run a contact has at most one open conversation |
| RunLaws.NextMessageFinds | app/services/conversation_service.py:125-224 | what the machine makes of a message, its contact, the leads and the conversation, is what the contact's next message finds, a new conversation once one has ended; nothing else touches a conversation |
| CaptureLaws.OnlyOfferQuestionLeavesCapture | app/bot/machine.py:122-131 | a capture state is left backwards exactly by a tap on the discount card's question |
| CaptureLaws.DetailTurnState | app/bot/handlers/callback.py:97-210 | a reply to a question about the contact leads to another such question or past them all |
| CaptureLaws.PhoneTurnProgress | app/bot/handlers/callback.py:97-123 | the phone question is the last of them, whatever the reply |
| CaptureLaws.DetailTurnCounts | app/bot/handlers/callback.py:97-210 | each reply to a question about the contact uses up one of at most ten, or gets past them |
| CaptureLaws.DetailsTakeAtMostTenReplies | app/bot/handlers/callback.py:97-210 | at most ten replies pass in the name, email, course and phone questions |
| CaptureLaws.TenRepliesCanPass | app/bot/handlers/callback.py:97-210 | a run of ten such replies exists |
| CaptureLaws.TimeTurn | app/bot/handlers/callback.py:213-265 | the time question is left exactly when the validator takes the reply |
| CaptureLaws.RejectedRepliesRememberLastDay | app/bot/handlers/callback.py:226-242 | after any number of refused replies the stored day is the one most recently named |
| CaptureLaws.TimeOnlyReplyKeepsDay | app/services/scheduling/callback_time.py:178-197 | a later time-only reply is booked on that day or nowhere, as long as it is not past |
| EngagementLaws.TurnTallied | app/bot/handlers/common.py:71-103 | counter and flags change exactly as answers, nudges and discounts are sent |
| EngagementLaws.DiscoveryKept | app/bot/handlers/discovery.py:71-113 | what discovery sends is what its counter and flags record: answers counted, never both offers, a discount only while selling and only once |
| EngagementLaws.NudgesAreRationed | app/bot/context.py:96-112 | between flow resets at most one nudge, never before the threshold of answers; one discount per conversation |
| EngagementLaws.OffersAreWellPlaced | app/bot/handlers/offer.py:23-118 | no turn sends both offers; no discount in capture or to an enrolled student |
| ConversationService.ConversationService.GetOrCreateUser | app/repositories/user_repository.py:22-37 | the contact is found or created, the profile name refreshed |
| ConversationService.ConversationService.GetActive | app/repositories/conversation_repository.py:23-46 | the newest open conversation is found |
| ConversationService.ConversationService.GetOrCreateActive | app/repositories/conversation_repository.py:58-64 | or a new one is opened |
| ConversationService.ConversationService.ExistsWaMessage | app/repositories/message_repository.py:44-53 | whether the message has a row |
| ConversationService.ConversationService.RunTurn | app/services/conversation_service.py:125-224 | a redelivery changes nothing; any other message, also of a blocked or paused contact, is one step of a run, so the invariant of the runs holds throughout; blocked, it leaves conversations, leads and transcript alone; paused, it is only transcribed; else the machine's reply and leads come of it, and the transcript gets message and replies |
| InboundTurns.TracesAreSafe | app/services/conversation_service.py:125-224 | the unique keys, the row locks and the output log stay consistent in every interleaving |
| InboundTurns.EachMessageTakesEffectOnce | app/services/conversation_service.py:90-122 | for each message identifier at most one committed turn and one lead write, and all replies sent come from one delivery, each once |
| InboundTurns.OnlyDecidedRepliesAreSent | app/services/conversation_service.py:116-122 | only replies of the committed turn of a message are delivered |
| InboundTurns.GatesHold | app/services/conversation_service.py:143-190 | blocked: no handler, nothing stored; paused: stored, no reply and no lead |
| InboundTurns.MessageRowsAreCommitted | app/db/models/message.py:34-36 | a stored message row belongs to a committed delivery of it |
| InboundTurns.ConversationsAreExclusive | app/repositories/conversation_repository.py:23-46 | two turns never hold the same conversation row |
| InboundTurns.CollisionsHaveAWinner | app/services/conversation_service.py:94-108 | an error swallowed on the message index is a redelivery: another delivery of the message is committed and stored; on the phone index the contact exists by now |
| InboundTurns.ErrorsAreRedeliveriesExactlyWhen | app/services/conversation_service.py:94-108 | at every moment of every run: no later delivery of a phone is ever swallowed with its message unstored, in any continuation, exactly when the phone has its contact row |
| InboundTurns.KnownContactsLoseNothing | app/repositories/user_repository.py:22-37 | with the row there, a swallowed error always is a redelivery of a stored message |
| InboundTurns.SecondIsLost | app/repositories/user_repository.py:22-37 | without it, from any reachable service, two new messages interleave so that the second is lost |
| InboundTurns.FirstMessageCanBeLost | app/services/conversation_service.py:94-108 | a run from the start that loses one of two first messages |
| TurnLaws.LaterTurnsObeyTheGate | app/services/conversation_service.py:137-190 | a delivery that arrives once a contact's gate is set goes by it until somebody changes it, in every interleaving: blocked, its message is never stored; paused, no handler runs on it; else it is neither refused nor left to an agent |
| TurnLaws.CommittedAsDecided | app/services/conversation_service.py:192-224 | a committed turn is what the machine decided on its message, or nothing when an agent has the contact; message and contact are stored, and a lead exactly if one was decided |
| TurnLaws.RepliesLeaveAsTried | app/services/conversation_service.py:90-122 | the replies of a turn are tried one after the other, each once, none before the commit, and exactly those leave whose sending did not fail, in their order |
| ConsoleProtocol.TracesAreSafe | frontend/src/lib/handover.ts:62-109 | the protocol invariant holds after every possible sequence of actions in which no conversation is switched while a request is out and no click is made on an outdated button |
| ConsoleProtocol.SettledShowsServer | frontend/src/lib/handover.ts:21-25 | then, with a conversation open and no click in flight, the button shows what the server says exactly when the server has been heard since opening, or the list row it was opened from said the same |
| ConsoleProtocol.NoFlipBack | frontend/src/lib/handover.ts:11-18 | a click shows the opposite, its failure what was before, opening the row; a poll changes what is shown exactly when it is the first word taken from the server since opening and the row had said otherwise; nothing else changes it |
| ConsoleProtocol.UnheardShowsRow | frontend/src/components/Inbox.tsx:162-169 | until the server has been heard, the row opened from is what is shown or what a failing click falls back to |
| ConsoleProtocol.HonestRowsNeverFlip | frontend/src/lib/handover.ts:11-25 | when every row opened from says what the server says, the settled button always does, and only a click, its failure or opening changes it |
| ConsoleProtocol.StaleRowFlips | frontend/src/components/Inbox.tsx:162-169 | a run in which an outdated row is shown and then flips without a click |
| ConsoleProtocol.OnlyFreshPollsAreTaken | frontend/src/lib/handover.ts:90-97 | in every sequence of actions, careful or not, an observation is taken only if nothing has written the toggle since its poll left and no click is in flight |
| ConsoleProtocol.EpochCountsWrites | frontend/src/lib/handover.ts:62-109 | in every sequence the epoch counts the clicks not ignored, confirmations, failures and resets |
| ConsoleProtocol.TracesAreTimed | frontend/src/lib/handover.ts:62-109 | in every sequence neither the rendered toggle nor a poll's record is ahead of the epoch |
| ConsoleProtocol.PollDecidesExactlyWhen | frontend/src/lib/handover.ts:90-97 | in every sequence a poll that lands decides what is shown exactly when it is of the open conversation, no click is in flight, and the epoch it recorded is the present one |
| ConsoleProtocol.OpeningFetchIsNeverTaken | frontend/src/components/Inbox.tsx:162-182 | in every sequence the fetch made on opening records a past epoch and is not taken |
| ConsoleProtocol.ClickMustSeeWhatIsShown | frontend/src/components/Inbox.tsx:186-200 | after careful use and with no click in flight, the answer to a click leaves on the button what the click showed exactly when the rendered value was the shown one |
| ConsoleProtocol.UnrenderedClickFlipsBack | frontend/src/components/Inbox.tsx:186-200 | a run in which a click right after a confirmation is flipped back by its own answer |
| ConsoleProtocol.SecondRequestExactlyWhen | frontend/src/components/Inbox.tsx:186-189 | after careful use, a click is let through beside a request that is out exactly when the reducer is busy and that is not rendered yet; the reducer ignores it and the request asks for the same again |
| ConsoleProtocol.DoubleClickSendsTwo | frontend/src/components/Inbox.tsx:186-200 | a run in which two clicks before a render send two requests |
| ConsoleProtocol.LateConfirmationMisleads | frontend/src/components/Inbox.tsx:162-210 | when a conversation is switched while a request is out, its answer leaves the new button showing what the server says exactly when it is the same conversation or the server happens to agree |
| ConsoleProtocol.LateConfirmationLeaks | frontend/src/components/Inbox.tsx:199-203 | a run in which the confirmation for one conversation is taken for another |
| Inbox.ThreadHolds | frontend/src/components/Inbox.tsx:131-138 | no message is drawn twice, none is lost, the newest identifier is kept |
| Inbox.ThreadSeesAll | frontend/src/components/Inbox.tsx:131-138 | everything delivered is seen |
| Inbox.DrawnAsDelivered | frontend/src/components/Inbox.tsx:131-138 | what is drawn is what was delivered, text and all, and of each new identifier the first message delivered with it |
| Inbox.RedeliveryDrawsNothing | frontend/src/components/Inbox.tsx:131-138 | delivering the same messages again draws nothing |
| Inbox.IncrementalsOverlapExactlyWhen | frontend/src/components/Inbox.tsx:109-156 | two incremental fetches are ever out together exactly when one is started right after an answer came in while another was still out |
| Inbox.OneFetchUnlessOvertaken | frontend/src/components/Inbox.tsx:109-156 | while no full fetch overtakes another fetch, at most one is out, and the flag says whether |
| Inbox.IncrementalsCanOverlap | frontend/src/components/Inbox.tsx:109-182 | a run in which opening a conversation during a poll lets two incremental fetches overlap |
| Inbox.Console.FinishRefresh | frontend/src/components/Inbox.tsx:117-156 | an answer for another conversation is dropped, otherwise drawn and observed |
| Inbox.Console.StartToggle | frontend/src/components/Inbox.tsx:186-200 | a click is ignored while one is in flight, else sends one request |
| Inbox.ClickFollowsProtocol | frontend/src/components/Inbox.tsx:186-200 | the component sends a request exactly when the protocol allows a click, and it is the protocol's |
| Inbox.AnswerFollowsProtocol | frontend/src/components/Inbox.tsx:199-210 | the answer or failure of a request lands as the protocol says |
| Inbox.OpenFollowsProtocol | frontend/src/components/Inbox.tsx:162-182 | opening is the protocol's action, and its full fetch always leaves with the rendered epoch |
| Inbox.StartFollowsProtocol | frontend/src/components/Inbox.tsx:109-116 | a fetch leaves exactly when the flag lets it and is the poll of the protocol |
| Inbox.RefreshFollowsProtocol | frontend/src/components/Inbox.tsx:109-156 | a fetch that answers lands as the protocol says and clears the flag |
| RateLimit.PrunedIsLive | app/core/ratelimit.py:50-54 | what is held after pruning is exactly what is in the window |
| RateLimit.StaleKeysDoNotCount | app/core/ratelimit.py:78-84 | dropping a stale key changes no later answer |
| RateLimit.AcceptKeepsSpaced | app/core/ratelimit.py:54-60 | limit + 1 consecutive accepted events span more than the window, counted since the last one lost |
| RateLimit.AgreesCounts | app/core/ratelimit.py:45-60 | the table and the full log count the same live events once every lost one has left the window |
| RateLimit.EvictKeeps | app/core/ratelimit.py:71-90 | an eviction keeps every remaining key faithful to its log |
| RateLimit.SlidingWindowLimiter.AnswersAsTheLog | app/core/ratelimit.py:45-60 | the answer is the full log's for every key whose lost events have left the window, and never stricter for any |
| RateLimit.SlidingWindowLimiter.AcceptedEventsAreSpaced | app/core/ratelimit.py:45-60 | the spacing in every valid limiter, except across a lost event |
| RateLimit.SlidingWindowLimiter.SortedByLatest | app/core/ratelimit.py:88 | the keys, newest first, each once |
| RateLimit.SlidingWindowLimiter.Evict | app/core/ratelimit.py:71-90 | stale keys go; if there are none the oldest go; at most the maximum stays and no stored list is empty |
| RateLimit.SlidingWindowLimiter.KeepFirst | app/core/ratelimit.py:88-90 | exactly the first keys of the order are kept |
| RateLimit.SlidingWindowLimiter.Prune | app/core/ratelimit.py:47-52 | what left the window is forgotten |
| RateLimit.SlidingWindowLimiter.Allow | app/core/ratelimit.py:45-60 | the answer, the log, the bounded table; a live event is lost only when a new key meets a full table, and then its newest stamp is known |
| RateLimit.SlidingWindowLimiter.Remaining | app/core/ratelimit.py:62-69 | positive exactly when an event would be allowed at this instant |
| Inactivity.InactivitySweeper.IsWaitingOnThem | app/services/inactivity.py:211-248 | the bot spoke last and was not being said goodbye to |
| Inactivity.InactivitySweeper.Select | app/services/inactivity.py:144-162 | a page of at most 200 eligible rows |
| Inactivity.InactivitySweeper.Chase | app/services/inactivity.py:164-202 | a row is nudged exactly when it is due and the message goes out |
| Inactivity.InactivitySweeper.Sweep | app/services/inactivity.py:135-208 | every row is untouched or due and nudged; on one page every due and deliverable row is nudged; their number is returned |
| Inactivity.NudgeIsDueExactlyWhen | app/services/inactivity.py:144-172 | a nudge is due exactly for an open, unfinished, unpaused, unblocked conversation in the quiet window whose contact was left hanging, as the first, or as the second after the gap |
| Inactivity.SecondNudgeFollows | app/services/inactivity.py:164-172 | after the first the second is due exactly when the gap is over and the window open, and then never again |
| Inactivity.RunsCount | app/services/inactivity.py:274-300 | stage and time in the context are those of the nudges sent |
| Inactivity.AtMostTwoNudges | app/services/inactivity.py:44-202 | over any run at most two nudges, the second at least the gap after the first; each only in the quiet window, with the bot last to speak and no goodbye said, to a contact neither paused nor blocked, changing nothing but transcript and stage |
| LeadSync.FindRow | app/services/crm/google_sheets.py:221-243 | the first row of the lead, or none |
| LeadSync.WrittenRowReadsBack | app/services/crm/base.py:146-182 | read back by its headings, a written row gives each exported field of its lead: numbers, name, times, wording, note, status, and by kind profession or email, course and issue |
| LeadSync.UpsertKeepsOneRow | app/services/crm/google_sheets.py:191-219 | an upsert keeps one row a lead and replaces only that lead's |
| LeadSync.SyncKeepsMirrorExactlyWhen | app/services/lead_service.py:94-126 | whichever requests of a push fail, the mirror is kept exactly when no header is written over another synced lead and no row appended beside its own |
| LeadSync.CreateKeepsMirror | app/repositories/lead_repository.py:18-56 | a new lead, pending, leaves the mirror as it is |
| LeadSync.ChangeKeepsMirror | app/repositories/lead_repository.py:135-156 | a moved booking may differ from its row until it is synced again |
| LeadSync.SyncAgainChangesNothing | app/services/crm/google_sheets.py:191-211 | under its header, syncing a synced lead again changes nothing |
| LeadSync.AwaitingIsExact | app/repositories/lead_repository.py:67-86 | the pending list holds only and, below the limit, all unsynced leads |
| LeadSync.RetriedMarks | app/services/lead_service.py:128-142 | a retry marks exactly its leads, each by how its push went |
| LeadSync.RetryIsIdempotent | app/services/lead_service.py:128-142 | with room for every lead, repeating a retry with the same outcomes changes nothing exactly when no row was written behind an unreadable column and reported lost |
| LeadSync.AgainReachesNoOther | app/repositories/lead_repository.py:67-86 | at the limit, the next retry reaches no other lead exactly when the first reached all or settled none |
| LeadSync.SecondRetry | app/services/lead_service.py:128-142 | then too repeating changes nothing under the same condition |
| LeadSync.CompleteRetryLeavesNothing | app/services/lead_service.py:128-142 | after a retry whose pushes all arrive the next one finds nothing to do |
| LeadSync.RetryIsItsSyncs | app/services/lead_service.py:128-142 | a retry is the run of its syncs |
| LeadSync.SheetMirrorsLeads | app/services/crm/google_sheets.py:105-219 | over every run of bookings, moves, syncs and restarts, with requests failing as they may: one row a lead, each on its own kind's tab, and synced rows equal to the fields, at every moment exactly when every sync was harmless |
| LeadSync.ReliableRunsMirror | app/services/crm/google_sheets.py:105-219 | with headers written and columns read it always holds, and every tab starts with its header |
| LeadSync.SyncedLeadsReadBack | app/services/crm/google_sheets.py:118-142 | over every such run, each synced lead has a row on its tab that reads back as the lead |
| LeadSync.HeaderFailureErasesALead | app/services/crm/google_sheets.py:246-284 | a run in which a header that could not be written costs a synced lead its row after a restart |
| LeadSync.UnreadableColumnLeavesOldTime | app/services/crm/google_sheets.py:191-238 | a run in which a moved booking keeps its old row beside the new one |
| LeadSync.UnreadableColumnDuplicates | app/services/crm/google_sheets.py:224-238 | when the column cannot be read, one row each survives exactly for a new lead |
| LeadSync.HeaderRepairKeepsLeads | app/services/crm/google_sheets.py:246-284 | writing a header loses exactly the first row, and keeps one row a lead |
| LeadSync.GoogleSheet.EnsureHeader | app/services/crm/google_sheets.py:246-284 | a missing header is written, a different one replaced, once a process and tab, whether or not that works |
| LeadSync.GoogleSheet.FindRowOf | app/services/crm/google_sheets.py:221-243 | the scan finds the lead's first row, or nothing in an unreadable column |
| LeadSync.GoogleSheet.PushLead | app/services/crm/google_sheets.py:118-142 | header first, then update in place or append |
| LeadSync.LeadSyncService.SyncLead | app/services/lead_service.py:94-126 | one lead pushed and marked synced, failed or skipped |
| LeadSync.LeadSyncService.RetryPending | app/services/lead_service.py:128-142 | every pending lead is synced in turn, and those that arrived are counted |
| Retriever.ContainingAtMost | app/services/knowledge/retriever.py:144-145 | a term is in at most all snippets, and in some exactly when one contains it |
| Retriever.IdfSign | app/services/knowledge/retriever.py:153-157 | an inverse document frequency is positive exactly when no more documents are counted than there are |
| Retriever.ScoreIsPositiveIffShared | app/services/knowledge/retriever.py:159-174 | a lexical score is never negative, and positive exactly when a term is shared |
| Retriever.RankedIsSorted | app/services/knowledge/retriever.py:218 | ranking is a permutation in falling score |
| Retriever.TakenIsWellTaken | app/services/knowledge/retriever.py:219-230 | the selection is within every limit and stops only at one |
| Retriever.IndexIsFaithful | app/services/knowledge/retriever.py:133-146 | with unique identifiers every snippet has its own tokens |
| Retriever.KeywordRetriever.BuildIndex | app/services/knowledge/retriever.py:130-147 | the document frequency of every term is the number of snippets that contain it |
| Retriever.KeywordRetriever.IdfIsNeverNegativeExactlyWhen | app/services/knowledge/retriever.py:130-157 | for any snippets, none of the built index is negative exactly when no term is in more snippets than there are distinct identifiers |
| Retriever.KeywordRetriever.UniqueIdsMakeCountsPlausible | app/services/knowledge/retriever.py:130-157 | with unique identifiers that is so |
| Retriever.KeywordRetriever.ScoreOf | app/services/knowledge/retriever.py:159-174 | the loop computes the BM25 sum over the distinct query terms |
| Retriever.KeywordRetriever.CollectHits | app/services/knowledge/retriever.py:189-213 | the snippets for the audience that score above zero, scoped and weighted |
| Retriever.KeywordRetriever.Select | app/services/knowledge/retriever.py:219-230 | the selection loop takes the specified prefix |
| Retriever.KeywordRetriever.Retrieve | app/services/knowledge/retriever.py:177-260 | ranked and selected hits, or the fallback |
| Retriever.KeywordRetriever.RetrievalIsWellChosen | app/services/knowledge/retriever.py:215-230 | a prefix of the score order, each at least a quarter of the top, within count and budget unless single, not empty |
| Retriever.KeywordRetriever.HitIffTermShared | app/services/knowledge/retriever.py:192-213 | unscoped, a snippet of positive weight is a hit exactly when it shares a term |
| Retriever.RepeatedIdTurnsNegative | app/services/knowledge/retriever.py:142-157 | two snippets with one identifier make a document frequency negative |
| RetrievalLaws.TokensAreWordsAndNeighbours | app/services/knowledge/retriever.py:79-91 | tokens are the words and the pairs of neighbours |
| RetrievalLaws.FieldsAreWeighted | app/services/knowledge/retriever.py:133-141 | title and tags count three times the content |
| RetrievalLaws.SaturationScale | app/services/knowledge/retriever.py:169 | a first occurrence in a document of average length counts one, none count two and a half |
| RetrievalLaws.RarityIsTheShare | app/services/knowledge/retriever.py:153-157 | a term weighs by how many documents there are to each that has it |
| RetrievalLaws.ScoreOrder | app/services/knowledge/retriever.py:159-174 | a score rises strictly with how often the query's terms occur and falls strictly with length |
| RetrievalLaws.TermsAreWeighed | app/services/knowledge/retriever.py:163-173 | a rarer term, one asked for more often, and a pair of words each count for strictly more |
| RetrievalLaws.AskedCourseIsPreferred | app/services/knowledge/retriever.py:199-206 | the asked-for course strictly before general snippets, those strictly before other courses, and exactly how much better a text makes up for it |
| RetrievalLaws.GeneralIsPreferred | app/services/knowledge/retriever.py:207-209 | with no course asked for, a general snippet strictly before a course's |
| RetrievalLaws.HeavierIsPreferred | app/services/knowledge/retriever.py:210 | the heavier snippet strictly first |
| RetrievalLaws.HitExactlyWhen | app/services/knowledge/retriever.py:189-213 | a snippet is a hit exactly when it is for the audience, of positive weight, and of the asked-for course or sharing a term |
| RetrievalLaws.AnswersAreBestFirst | app/services/knowledge/retriever.py:215-218 | the hits by falling score, equal ones as in the knowledge base, each once |
| RetrievalLaws.CloserStandsFirst | app/services/knowledge/retriever.py:199-218 | of hits with the same text and weight the one closer to the course asked for stands first |
| RetrievalLaws.BestArePicked | app/services/knowledge/retriever.py:186-230 | the best hits, from a quarter of the top score on, within the count and characters given or the retriever's own, and stopping only there |
| RetrievalLaws.FallbackHolds | app/services/knowledge/retriever.py:243-260 | when nothing scores: the overview of the course asked for, about and contact, as far as they exist and the limit goes |
| RetrievalLaws.AudienceIsKeptExactlyWhen | app/services/knowledge/retriever.py:189-260 | what is retrieved is for the audience exactly when something scores or the fallback happens to be |
| RetrievalLaws.FallbackCrossesSides | app/services/knowledge/retriever.py:243-260 | a knowledge base whose fallback hands a student's text to someone who has not enrolled |

## Left out

- FunnelRuns.EveryLeadIsFull: says that a name is there, not whose: when another call is booked, a name may be read out of a time reply.
- FunnelRuns.EveryLeadTimeIsBookable: the time lay ahead when it was accepted; it may have passed by the time the capture is finished, as in the code.
- FunnelRuns.RunsAreSafe: turns commit one after another; interleaved deliveries are InboundTurns, where the machine's effect is arbitrary.
- Funnel.UpcomingAmong: of two bookings at the same moment the older row is taken, which the query leaves open.
- DisplayRoundTrip.DisplayRoundTrips: the text of a printed slot, in ASCII; the calendar has no last year, where the original's ends with 9999.
- ConversationService.ConversationService.RunTurn: the answer texts, the stored history and media, and the console's notifications are not modelled.
- InboundTurns.EachMessageTakesEffectOnce: at most once, not exactly once, which is false; one active conversation per contact is not claimed of interleaved deliveries, since there is no row to lock before the first exists.
- ConsoleProtocol.NoFlipBack: for careful use only, which the code leaves to its user (the runs of the lemmas beside it show what happens otherwise); a request that fails was not applied, and no other console writes.
- Inbox.ThreadHolds: the fetch path only; the optimistic send path writes the same cache and is not modelled.
- RateLimit.SlidingWindowLimiter.Evict: among keys with equal newest stamps any may go, where the original keeps insertion order.
- Inactivity.AtMostTwoNudges: sweeps do not overlap each other or a message, and nothing but a send fails inside one.
- LeadSync.SheetMirrorsLeads: syncs do not overlap, nobody edits the sheet, a lead's status is not changed behind the sync, and a request for a header or a column either works or changes nothing; a tab that could not be created is an empty one on which all requests fail.
- Retriever.ScoreIsPositiveIffShared: exact reals, and of the logarithm only that it is zero at one and grows strictly.
- Daylight saving: moments are wall-clock times of one timezone, as the original compares them.
- The lexicons and extractors for intents, emails, phones and names are arbitrary facts of a message; only the callback-time grammar is read, with digits, letters and white space of ASCII.
- The label of a lead's interested course and the creation date of a row are not part of a lead here; its issue is the topic, not its label.
- The language model, prompts, menus and message texts, the WhatsApp client, sessions and signatures, migrations and logging: calls out or easy members.
- Singular forms and stop words of the tokenizer: both sides of a match pass through the same rules.

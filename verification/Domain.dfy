/** The values the bot works on: conversation states, the context of a conversation,
contacts, leads, inbound messages and replies. */
module Domain {
  import opened Wrappers
  import opened Calendar
  import opened CallbackTime

  /** A string the source would treat as present: Python counts "" as missing. */
  type Text = s: string | s != "" witness "there"

  datatype State =
    | Start | MainMenu
    | CourseGroup | CourseSelection | CourseQna | GeneralQna | Discovery
    | EnrollmentType | SupportMenu | SupportQuery | SupportCallback
    | AskCallback | ConfirmReschedule
    | AskName | AskEmail | AskEnrolledCourse | AskPhone | AskCallbackTime | AskRemarks
    | LeadCreated | End

  /** States that are part of capturing a callback request. */
  predicate Capturing(s: State) {
    s.AskName? || s.AskEmail? || s.AskEnrolledCourse? || s.AskPhone? || s.AskCallbackTime? || s.AskRemarks?
  }

  /** States where a discount is a sensible thing to raise. */
  predicate Selling(s: State) {
    s.Discovery? || s.CourseQna? || s.GeneralQna?
  }

  datatype LeadType = PreSales | PostSales
  datatype LeadStatus = NewLead | Contacted | Qualified | Converted | Lost
  datatype SyncStatus = Pending | Synced | Failed | Skipped

  datatype Course = Course(slug: Text, name: Text, free: bool)

  /** Slots of a booking. */
  datatype FormSlot = NameSlot | EmailSlot | CourseSlot | TimeSlot

  /** The scratch context of one conversation: what was said, and the booking being filled in. */
  datatype Chat = Chat(
    qnaCount: nat,
    nudged: bool,
    offerSent: bool,
    payLinkSent: bool,
    returnState: Option<State>,
    profile: Option<string>,
    supportTopic: Option<Topic>)

  datatype Form = Form(
    pendingName: Option<Text>,
    pendingTime: Option<Moment>,
    pendingTimeRaw: Option<string>,
    pendingDate: Option<Ordinal>,
    rescheduleLead: Option<nat>,
    email: Option<Text>,
    enrolledCourse: Option<Text>,
    contactPhone: Option<Text>,
    askedPhone: bool,
    nameAttempts: nat,
    emailAttempts: nat,
    courseAttempts: nat)

  const EMPTY_CHAT := Chat(0, false, false, false, None, None, None)
  const EMPTY_FORM := Form(None, None, None, None, None, None, None, None, false, 0, 0, 0)

  datatype Topic = VideoTopic | TechnicalTopic | OtherTopic

  datatype Conv = Conv(state: State, leadType: Option<LeadType>, course: Option<Text>, chat: Chat, form: Form)

  const NEW_CONVERSATION := Conv(Start, None, None, EMPTY_CHAT, EMPTY_FORM)

  datatype Contact = Contact(phone: Text, name: Option<Text>, profileName: Option<Text>, paymentProof: bool) {
    function DisplayName(): Option<Text> {
      if name.Some? then name else profileName
    }
  }

  datatype Lead = Lead(
    phone: Text,
    kind: LeadType,
    status: LeadStatus,
    name: Option<Text>,
    preferredTime: Option<Moment>,
    preferredTimeRaw: Option<string>,
    remarks: Option<string>,
    contactPhone: Text,
    email: Option<Text>,
    enrolledCourse: Option<Text>,
    profession: Option<string>,
    issue: Option<Topic>,
    sync: SyncStatus)

  /** One contact, the conversation a turn runs on, and the lead table. Leads are never
  deleted; the row with identifier n is leads[n - 1]. */
  datatype World = World(conv: Conv, user: Contact, leads: seq<Lead>)

  // ------------------------------------------------------------------
  // Messages
  // ------------------------------------------------------------------

  datatype ReplyId =
    | MenuCourses | MenuEnrolled | MenuCounselor | MenuGeneral
    | GroupCohort | GroupAdvance | GroupUnknown
    | CourseUnsure | CourseOthers | CourseRow(slug: string)
    | EnrolledFree | EnrolledPaid | SupportRow(topic: Topic)
    | RescheduleMove | RescheduleNew | ConfirmYes | ConfirmNo
    | PhoneConfirm | PhoneOther
    | OfferDone | OfferQuestion | OfferPayNow
    | Retired

  datatype MenuChoice = ChooseCourses | ChooseEnrolled | ChooseCounselor

  /** What slot filling finds in a text. */
  datatype Found = Found(email: Option<Text>, phone: Option<Text>, course: Option<Course>, name: Option<Text>)

  /** What the lexicons and extractors say about a text: arbitrary facts. */
  datatype Said = Said(
    wantsMenu: bool, greeting: bool, closing: bool, undecided: bool,
    wantsCourses: bool, wantsTeaching: bool,
    wantsReschedule: bool, wantsHuman: bool,
    affirmative: bool, negative: bool, skip: bool, declines: bool,
    wantsToBuy: bool, asksPrice: bool,
    paid: bool, free: bool, atLeastThreeWords: bool,
    menuChoice: Option<MenuChoice>, topic: Option<Topic>, group: bool,
    course: Option<Course>, listedCourse: Option<Course>,
    found: Found, foundLater: Found,
    wholeName: Option<Text>, announcedName: Option<Text>, profile: Option<Text>)

  datatype Inbound = Inbound(
    unsupported: bool, image: bool, tap: Option<ReplyId>, text: string, now: Moment, said: Said)

  datatype Reply =
    | Menu | Note | Answer | HelpCheck
    | CallbackOffer | DiscountOffer
    | Ask(slot: FormSlot) | PhoneCheck | AskAgain(slot: FormSlot) | DetailsRequired
    | TimeRejected(reason: Option<Reason>, suggestions: seq<Slot>)
    | RemarksQuestion(when: Moment)
    | Booked(time: Option<Moment>) | Moved(to: Moment) | MoveOrAnother(lead: Option<nat>)

  /** What one turn decided: replies, the lead to sync, and whether the conversation is over. */
  datatype TurnResult = TurnResult(replies: seq<Reply>, lead: Option<nat>, close: bool)

  function Say(replies: seq<Reply>): TurnResult {
    TurnResult(replies, None, false)
  }

  datatype Deps = Deps(
    validator: Validator,
    nudgeThreshold: nat,
    courses: map<string, Course>,
    upsell: Option<Course>,
    offerCourse: Option<string>)
}

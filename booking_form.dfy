/**
 * The two-step ticket booking form: step 1 picks the number of seats and
 * the contact details, step 2 the payment method and its details. The
 * form state is `currentStep` and the nested `bookingData` record.
 */
module Booking {
  import opened Wrappers
  import opened Text
  import opened Types
  import opened Seqs
  import MockData

  /** The mock wallet balance the form starts with, in rupees. */
  const WalletBalance: int := 5000

  datatype ContactInfo = ContactInfo(name: string, email: string, phone: string)

  /** The per-method payment details; the wallet balance is never edited by the form. */
  datatype PaymentDetails = PaymentDetails(jazzcashPhone: string, easypaisaPhone: string, walletBalance: int, cashLocation: string)

  /** `bookingData`: `paymentMethod` holds the `type` of the chosen payment method, or ''. */
  datatype BookingData = BookingData(seats: int, paymentMethod: string, contactInfo: ContactInfo, paymentDetails: PaymentDetails)

  const InitialBookingData: BookingData :=
    BookingData(1, "", ContactInfo("", "", ""), PaymentDetails("", "", WalletBalance, ""))

  /** `totalAmount`: the ticket price (0 when absent) times the number of seats. */
  function TotalAmount(e: Event, seats: int): (r: int)
    ensures e.price.None? ==> r == 0
    ensures e.price.Some? ==> r == e.price.value * seats
  {
    e.price.GetOr(0) * seats
  }

  /**
   * `availableSeats`: the stored `availableSeats` when it is truthy (present
   * and non-zero), otherwise capacity minus attendees.
   */
  function AvailableSeats(e: Event): (r: int)
    ensures e.availableSeats.Some? && e.availableSeats.value != 0 ==> r == e.availableSeats.value
    ensures e.availableSeats.None? || e.availableSeats.value == 0 ==> r == e.capacity - e.attendees
  {
    if e.availableSeats.Some? && e.availableSeats.value != 0 then e.availableSeats.value
    else e.capacity - e.attendees
  }

  /** The "−" button: one seat fewer, at least 1. */
  function FewerSeats(seats: int): int {
    if seats - 1 > 1 then seats - 1 else 1
  }

  /** The "+" button: one seat more, at most `available`. */
  function MoreSeats(seats: int, available: int): int {
    if seats + 1 < available then seats + 1 else available
  }

  /**
   * The seat count lies between 1 and the available seats; when fewer than
   * one seat is available "+" can push the count down to that number.
   */
  predicate SeatsInRange(seats: int, available: int) {
    if available >= 1 then 1 <= seats <= available else available <= seats <= 1
  }

  /** A click on "−" or on "+". */
  datatype SeatClick = Minus | Plus

  function ClickSeat(seats: int, available: int, c: SeatClick): int {
    match c
    case Minus => FewerSeats(seats)
    case Plus => MoreSeats(seats, available)
  }

  /** The seat count after a sequence of clicks, applied in order. */
  function ClickSeats(seats: int, available: int, clicks: seq<SeatClick>): int
    decreases |clicks|
  {
    if clicks == [] then seats else ClickSeats(ClickSeat(seats, available, clicks[0]), available, clicks[1..])
  }

  /** Each button keeps the count in range; "−" stops at 1 and "+" at the available seats. */
  lemma SeatButtonsKeepRange(seats: int, available: int, c: SeatClick)
    requires SeatsInRange(seats, available)
    ensures SeatsInRange(ClickSeat(seats, available, c), available)
    ensures c == Minus ==> (ClickSeat(seats, available, c) == 1 <==> seats <= 2)
    ensures c == Plus && available >= 1 ==> (ClickSeat(seats, available, c) == available <==> seats >= available - 1)
  {
  }

  /**
   * From the initial single seat, no sequence of clicks leaves the range;
   * in particular with at least one seat available the count stays in
   * `[1, availableSeats]`.
   */
  lemma {:induction false} ClicksKeepRange(seats: int, available: int, clicks: seq<SeatClick>)
    requires SeatsInRange(seats, available)
    ensures SeatsInRange(ClickSeats(seats, available, clicks), available)
    ensures available >= 1 ==> 1 <= ClickSeats(seats, available, clicks) <= available
    decreases |clicks|
  {
    if clicks != [] {
      SeatButtonsKeepRange(seats, available, clicks[0]);
      ClicksKeepRange(ClickSeat(seats, available, clicks[0]), available, clicks[1..]);
    }
  }

  /** `canProceedToPayment`: name, email and phone filled in and at least one seat. */
  predicate CanProceedToPayment(d: BookingData) {
    d.contactInfo.name != "" && d.contactInfo.email != "" && d.contactInfo.phone != "" && d.seats > 0
  }

  /**
   * `canCompleteBooking`: a method must be chosen; JazzCash and EasyPaisa
   * need that method's phone number, the wallet a balance that covers the
   * total, cash a pickup location; any other method is refused.
   */
  predicate CanCompleteBooking(d: BookingData, total: int) {
    if d.paymentMethod == "" then false
    else if d.paymentMethod == "jazzcash" then d.paymentDetails.jazzcashPhone != ""
    else if d.paymentMethod == "easypaisa" then d.paymentDetails.easypaisaPhone != ""
    else if d.paymentMethod == "wallet" then total <= d.paymentDetails.walletBalance
    else if d.paymentMethod == "cash" then d.paymentDetails.cashLocation != ""
    else false
  }

  /** The payment step lists only the methods marked active. */
  function IsActiveMethod(): PaymentMethod -> bool {
    (m: PaymentMethod) => m.isActive
  }

  function OfferedMethods(methods: seq<PaymentMethod>): seq<PaymentMethod> {
    Filter(methods, IsActiveMethod())
  }

  /**
   * Every method the payment step lists is active, and choosing it can
   * complete a booking: its `type` is a name `canCompleteBooking` accepts,
   * once that method's phone or location is given, or, for the wallet,
   * once the total is within the balance.
   */
  lemma OfferedMethodsCanComplete(methods: seq<PaymentMethod>, m: PaymentMethod, d: BookingData, total: int)
    requires m in OfferedMethods(methods)
    requires d.paymentMethod == m.methodType.Name()
    requires d.paymentDetails.jazzcashPhone != "" && d.paymentDetails.easypaisaPhone != ""
    requires d.paymentDetails.cashLocation != "" && total <= d.paymentDetails.walletBalance
    ensures m in methods && m.isActive
    ensures CanCompleteBooking(d, total)
  {
    FilterMembership(methods, IsActiveMethod(), m);
  }

  /** Every fixture method is active, so the payment step lists all four, in order. */
  lemma FixtureMethodsAllOffered()
    ensures OfferedMethods(MockData.PaymentMethods) == MockData.PaymentMethods
    ensures |OfferedMethods(MockData.PaymentMethods)| == 4
  {
    FilterKeepsAll(MockData.PaymentMethods, IsActiveMethod());
  }

  /**
   * With contact details filled in, the stepper never makes "Continue to
   * Payment" unavailable while a seat is available, and makes it
   * unavailable as soon as "+" is pressed on an event with no seat left.
   */
  lemma {:induction false} ProceedSurvivesStepper(d: BookingData, available: int, clicks: seq<SeatClick>)
    requires d.contactInfo.name != "" && d.contactInfo.email != "" && d.contactInfo.phone != ""
    requires SeatsInRange(d.seats, available) && available >= 1
    ensures CanProceedToPayment(d.(seats := ClickSeats(d.seats, available, clicks)))
  {
    ClicksKeepRange(d.seats, available, clicks);
  }

  lemma FullEventBlocksProceed(d: BookingData, available: int)
    requires available <= 0
    ensures !CanProceedToPayment(d.(seats := MoreSeats(d.seats, available)))
  {
  }

  /** The payment rules of `canCompleteBooking`, one per method. */
  lemma CompleteBookingRules(d: BookingData, total: int)
    ensures d.paymentMethod == "" ==> !CanCompleteBooking(d, total)
    ensures d.paymentMethod == "jazzcash" ==> (CanCompleteBooking(d, total) <==> d.paymentDetails.jazzcashPhone != "")
    ensures d.paymentMethod == "easypaisa" ==> (CanCompleteBooking(d, total) <==> d.paymentDetails.easypaisaPhone != "")
    ensures d.paymentMethod == "wallet" ==> (CanCompleteBooking(d, total) <==> total <= d.paymentDetails.walletBalance)
    ensures d.paymentMethod == "cash" ==> (CanCompleteBooking(d, total) <==> d.paymentDetails.cashLocation != "")
    ensures d.paymentMethod !in {"", "jazzcash", "easypaisa", "wallet", "cash"} ==> !CanCompleteBooking(d, total)
  {
  }

  /** A free event costs nothing for any number of seats, so the wallet always covers it. */
  lemma FreeEventWalletCovers(e: Event, d: BookingData)
    requires e.price.None? || e.price.value == 0
    requires d.paymentMethod == "wallet" && d.paymentDetails.walletBalance == WalletBalance
    ensures TotalAmount(e, d.seats) == 0
    ensures CanCompleteBooking(d, TotalAmount(e, d.seats))
  {
  }

  /** One more seat adds one ticket price to the total. */
  lemma TotalPerSeat(e: Event, seats: int)
    ensures TotalAmount(e, seats + 1) == TotalAmount(e, seats) + e.price.GetOr(0)
  {
  }

  /**
   * On the Rs. 5,000 wedding fixture the mock wallet pays for one ticket
   * but not for two; the fixtures' seats come from their stored counts.
   */
  lemma WeddingWalletFixture(d: BookingData)
    requires d.paymentMethod == "wallet" && d.paymentDetails.walletBalance == WalletBalance
    ensures CanCompleteBooking(d.(seats := 1), TotalAmount(MockData.WeddingEvent, 1))
    ensures !CanCompleteBooking(d.(seats := 2), TotalAmount(MockData.WeddingEvent, 2))
    ensures AvailableSeats(MockData.WeddingEvent) == 266
    ensures AvailableSeats(MockData.SummitEvent) == 433
    ensures AvailableSeats(MockData.MehndiEvent) == 155
  {
  }

  /** A stored count of 0 is falsy, so the form falls back to capacity minus attendees. */
  lemma ZeroStoredSeatsFallsBack(e: Event)
    requires e.availableSeats == Some(0)
    ensures AvailableSeats(e) == e.capacity - e.attendees
  {
  }

  /** The booking id: "BK" followed by the decimal timestamp. */
  function BookingId(timestamp: nat): (r: string)
    ensures |r| >= 3 && r[..2] == "BK"
    ensures forall k :: 2 <= k < |r| ==> IsDigit(r[k])
  {
    "BK" + NatToString(timestamp)
  }

  /** The timestamp can be read back from the id, so distinct times give distinct ids. */
  lemma BookingIdRoundTrip(timestamp: nat)
    ensures DigitsValue(BookingId(timestamp)[2..]) == timestamp
  {
    assert BookingId(timestamp)[2..] == NatToString(timestamp);
    NatToStringRoundTrip(timestamp);
  }

  lemma BookingIdInjective(t1: nat, t2: nat)
    requires BookingId(t1) == BookingId(t2)
    ensures t1 == t2
  {
    BookingIdRoundTrip(t1);
    BookingIdRoundTrip(t2);
  }

  /** The fields `handleContactInfoChange` is called with. */
  datatype ContactField = ContactName | ContactEmail | ContactPhone

  function WithContact(c: ContactInfo, field: ContactField, value: string): (r: ContactInfo)
    ensures field == ContactName ==> r == c.(name := value)
    ensures field == ContactEmail ==> r == c.(email := value)
    ensures field == ContactPhone ==> r == c.(phone := value)
  {
    match field
    case ContactName => c.(name := value)
    case ContactEmail => c.(email := value)
    case ContactPhone => c.(phone := value)
  }

  /** The (method, field) pairs `handlePaymentDetailsChange` is called with. */
  datatype PaymentDetailField = JazzcashPhone | EasypaisaPhone | CashLocation

  function WithPaymentDetail(p: PaymentDetails, field: PaymentDetailField, value: string): (r: PaymentDetails)
    ensures field == JazzcashPhone ==> r == p.(jazzcashPhone := value)
    ensures field == EasypaisaPhone ==> r == p.(easypaisaPhone := value)
    ensures field == CashLocation ==> r == p.(cashLocation := value)
  {
    match field
    case JazzcashPhone => p.(jazzcashPhone := value)
    case EasypaisaPhone => p.(easypaisaPhone := value)
    case CashLocation => p.(cashLocation := value)
  }

  /** The form for one event. */
  class BookingForm {
    const event: Event
    var currentStep: int
    var bookingData: BookingData

    /** The step is 1 or 2, the seats stay in range and the wallet balance is the mock one. */
    ghost predicate Valid()
      reads this
    {
      && (currentStep == 1 || currentStep == 2)
      && SeatsInRange(bookingData.seats, AvailableSeats(event))
      && bookingData.paymentDetails.walletBalance == WalletBalance
    }

    /** `totalAmount` for the current seat count. */
    function Total(): int
      reads this
    {
      TotalAmount(event, bookingData.seats)
    }

    constructor (e: Event)
      ensures event == e && currentStep == 1 && bookingData == InitialBookingData
      ensures Valid()
    {
      event := e;
      currentStep := 1;
      bookingData := InitialBookingData;
    }

    /** The "−" button of the seat stepper. */
    method DecrementSeats()
      requires Valid()
      modifies this
      ensures bookingData == old(bookingData).(seats := FewerSeats(old(bookingData.seats)))
      ensures currentStep == old(currentStep)
      ensures Valid()
    {
      SeatButtonsKeepRange(bookingData.seats, AvailableSeats(event), Minus);
      bookingData := bookingData.(seats := FewerSeats(bookingData.seats));
    }

    /** The "+" button of the seat stepper. */
    method IncrementSeats()
      requires Valid()
      modifies this
      ensures bookingData == old(bookingData).(seats := MoreSeats(old(bookingData.seats), AvailableSeats(event)))
      ensures currentStep == old(currentStep)
      ensures Valid()
    {
      SeatButtonsKeepRange(bookingData.seats, AvailableSeats(event), Plus);
      bookingData := bookingData.(seats := MoreSeats(bookingData.seats, AvailableSeats(event)));
    }

    /** `handleInputChange('paymentMethod', …)` from the payment radio buttons. */
    method ChoosePaymentMethod(methodType: string)
      requires Valid()
      modifies this
      ensures bookingData == old(bookingData).(paymentMethod := methodType)
      ensures currentStep == old(currentStep)
      ensures Valid()
    {
      bookingData := bookingData.(paymentMethod := methodType);
    }

    /** `handleContactInfoChange`: one contact field changes, nothing else. */
    method ChangeContactInfo(field: ContactField, value: string)
      requires Valid()
      modifies this
      ensures bookingData == old(bookingData).(contactInfo := WithContact(old(bookingData.contactInfo), field, value))
      ensures currentStep == old(currentStep)
      ensures Valid()
    {
      bookingData := bookingData.(contactInfo := WithContact(bookingData.contactInfo, field, value));
    }

    /** `handlePaymentDetailsChange`: one field of one method's details changes, nothing else. */
    method ChangePaymentDetails(field: PaymentDetailField, value: string)
      requires Valid()
      modifies this
      ensures bookingData == old(bookingData).(paymentDetails := WithPaymentDetail(old(bookingData.paymentDetails), field, value))
      ensures currentStep == old(currentStep)
      ensures Valid()
    {
      bookingData := bookingData.(paymentDetails := WithPaymentDetail(bookingData.paymentDetails, field, value));
    }

    /**
     * "Continue to Payment", shown on step 1: it moves to step 2, and does
     * nothing while it is disabled.
     */
    method ContinueToPayment()
      requires Valid() && currentStep == 1
      modifies this
      ensures currentStep == if CanProceedToPayment(bookingData) then 2 else 1
      ensures bookingData == old(bookingData)
      ensures Valid()
    {
      if CanProceedToPayment(bookingData) {
        currentStep := 2;
      }
    }

    /** "Previous", shown after step 1: back to step 1. */
    method Previous()
      requires Valid() && currentStep > 1
      modifies this
      ensures currentStep == 1 && bookingData == old(bookingData)
      ensures Valid()
    {
      currentStep := 1;
    }

    /**
     * "Complete Booking" on step 2 with the clock reading `timestamp`: when
     * enabled it yields the id handed to `onBookingComplete`; while disabled
     * it yields nothing. The form state is unchanged either way.
     */
    method CompleteBooking(timestamp: nat) returns (bookingId: Option<string>)
      requires currentStep == 2
      ensures bookingId.Some? <==> CanCompleteBooking(bookingData, Total())
      ensures bookingId.Some? ==> bookingId.value == BookingId(timestamp)
    {
      if CanCompleteBooking(bookingData, Total()) {
        bookingId := Some(BookingId(timestamp));
      } else {
        bookingId := None;
      }
    }
  }
}

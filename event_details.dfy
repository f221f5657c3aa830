/**
 * The event page: an image gallery, the price, the seats left, and
 * either a "Book Ticket" button (paid events) or three RSVP choices (free
 * events).
 */
module EventDetails {
  import opened Wrappers
  import opened Text
  import opened Types
  import MockData
  import Booking

  /** `availableSeats` on this page: capacity minus attendees; the stored count is not consulted. */
  function SeatsLeft(e: Event): int {
    e.capacity - e.attendees
  }

  /** The stored `availableSeats` field plays no part in the page's seat count. */
  lemma SeatsLeftIgnoresStoredCount(e: Event, stored: Option<int>)
    ensures SeatsLeft(e.(availableSeats := stored)) == SeatsLeft(e)
  {
  }

  /**
   * The booking form prefers the stored count, so the two screens can show
   * different numbers for the same event; on the fixtures they agree.
   */
  lemma SeatCountsCanDisagree(e: Event)
    requires e.availableSeats.Some? && e.availableSeats.value != 0
    ensures Booking.AvailableSeats(e) == SeatsLeft(e) <==> e.availableSeats.value == e.capacity - e.attendees
  {
  }

  lemma FixtureSeatCountsAgree()
    ensures Booking.AvailableSeats(MockData.WeddingEvent) == SeatsLeft(MockData.WeddingEvent) == 266
    ensures Booking.AvailableSeats(MockData.SummitEvent) == SeatsLeft(MockData.SummitEvent) == 433
    ensures Booking.AvailableSeats(MockData.MehndiEvent) == SeatsLeft(MockData.MehndiEvent) == 155
  {
  }

  /** A truthy price: present and non-zero. */
  predicate IsPaid(e: Event) {
    e.price.Some? && e.price.value != 0
  }

  /** The action area of the sidebar. */
  datatype ActionPanel =
    | BookButton(disabled: bool, caption: string)
    | RsvpChoices(selected: Option<RsvpStatus>)

  function Panel(e: Event, rsvpStatus: Option<RsvpStatus>): ActionPanel {
    if IsPaid(e) then
      var full := SeatsLeft(e) == 0;
      BookButton(full, if full then "Sold Out" else "Book Ticket")
    else RsvpChoices(rsvpStatus)
  }

  /**
   * Paid events get the book button and free events the RSVP choices; the
   * button is disabled and reads "Sold Out" exactly when no seat is left.
   */
  lemma PanelRules(e: Event, rsvpStatus: Option<RsvpStatus>)
    ensures Panel(e, rsvpStatus).BookButton? <==> IsPaid(e)
    ensures Panel(e, rsvpStatus).RsvpChoices? ==> Panel(e, rsvpStatus).selected == rsvpStatus
    ensures Panel(e, rsvpStatus).BookButton? ==> (Panel(e, rsvpStatus).disabled <==> SeatsLeft(e) == 0)
    ensures Panel(e, rsvpStatus).BookButton? ==> (Panel(e, rsvpStatus).caption == "Sold Out" <==> SeatsLeft(e) == 0)
  {
  }

  /** Over capacity the count is negative, not 0, so the book button stays enabled. */
  lemma OverbookedStaysBookable(e: Event, rsvpStatus: Option<RsvpStatus>)
    requires IsPaid(e) && e.attendees > e.capacity
    ensures Panel(e, rsvpStatus) == BookButton(false, "Book Ticket")
  {
  }

  /** On the fixtures the wedding is bookable and the unpriced mehndi night offers RSVP. */
  lemma FixturePanels()
    ensures Panel(MockData.WeddingEvent, None) == BookButton(false, "Book Ticket")
    ensures Panel(MockData.SummitEvent, None) == BookButton(false, "Book Ticket")
    ensures Panel(MockData.MehndiEvent, None) == RsvpChoices(None)
  {
  }

  /** The line under the attendance bar. */
  function SeatsMessage(e: Event): string {
    if SeatsLeft(e) > 0 then NatToString(SeatsLeft(e)) + " seats available" else "Event is full"
  }

  /** "Event is full" is shown exactly when no seat is left; otherwise the count is shown. */
  lemma SeatsMessageRule(e: Event)
    ensures SeatsMessage(e) == "Event is full" <==> SeatsLeft(e) <= 0
    ensures SeatsLeft(e) > 0 ==> SeatsMessage(e) == NatToString(SeatsLeft(e)) + " seats available"
  {
    if SeatsLeft(e) > 0 {
      var m := SeatsMessage(e);
      assert IsDigit(m[0]);
      assert !IsDigit("Event is full"[0]);
    }
  }

  /** `event.gallery?.[selectedImageIndex] || event.image`. */
  function MainImage(e: Event, index: int): (r: string)
    ensures r == e.image || (e.gallery.Some? && r in e.gallery.value && r != "")
    ensures e.gallery.Some? && 0 <= index < |e.gallery.value| && e.gallery.value[index] != "" ==> r == e.gallery.value[index]
    ensures e.gallery.None? || !(0 <= index < |e.gallery.value|) || e.gallery.value[index] == "" ==> r == e.image
  {
    if e.gallery.Some? && 0 <= index < |e.gallery.value| && e.gallery.value[index] != "" then e.gallery.value[index]
    else e.image
  }

  /** The thumbnail strip is shown only for a gallery of two or more images. */
  predicate ShowsThumbnails(e: Event) {
    e.gallery.Some? && |e.gallery.value| > 1
  }

  /** Clicking thumbnail `index` puts that very image on the main view. */
  lemma ThumbnailShowsItsImage(e: Event, index: int)
    requires ShowsThumbnails(e) && 0 <= index < |e.gallery.value|
    ensures e.gallery.value[index] != "" ==> MainImage(e, index) == e.gallery.value[index]
    ensures e.gallery.value[index] == "" ==> MainImage(e, index) == e.image
  {
  }

  /** The page for one event: the selected image, the chosen RSVP and the like toggle. */
  class EventDetailsView {
    const event: Event
    var selectedImageIndex: int
    var rsvpStatus: Option<RsvpStatus>
    var isLiked: bool

    /** The selected image is the first one or one of the thumbnails. */
    ghost predicate Valid()
      reads this
    {
      selectedImageIndex == 0 || (ShowsThumbnails(event) && 0 <= selectedImageIndex < |event.gallery.value|)
    }

    constructor (e: Event)
      ensures event == e && selectedImageIndex == 0 && rsvpStatus == None && !isLiked
      ensures Valid()
    {
      event := e;
      selectedImageIndex := 0;
      rsvpStatus := None;
      isLiked := false;
    }

    /** A thumbnail click. */
    method SelectImage(index: int)
      requires Valid() && ShowsThumbnails(event) && 0 <= index < |event.gallery.value|
      modifies this
      ensures selectedImageIndex == index
      ensures rsvpStatus == old(rsvpStatus) && isLiked == old(isLiked)
      ensures Valid()
    {
      selectedImageIndex := index;
    }

    /** The heart button. */
    method ToggleLike()
      requires Valid()
      modifies this
      ensures isLiked == !old(isLiked)
      ensures selectedImageIndex == old(selectedImageIndex) && rsvpStatus == old(rsvpStatus)
      ensures Valid()
    {
      isLiked := !isLiked;
    }

    /**
     * `handleRSVP`, reachable only on a free event: record the choice and
     * forward the event id and the same status to `onRSVP`.
     */
    method HandleRsvp(status: RsvpStatus) returns (eventId: string, forwarded: RsvpStatus)
      requires Valid() && !IsPaid(event)
      modifies this
      ensures rsvpStatus == Some(status)
      ensures eventId == event.id && forwarded == status
      ensures selectedImageIndex == old(selectedImageIndex) && isLiked == old(isLiked)
      ensures Valid()
    {
      rsvpStatus := Some(status);
      eventId, forwarded := event.id, status;
    }

    /** "Book Ticket", enabled only on a paid event with seats left other than 0: forwards the event. */
    method BookTicket() returns (booked: Event)
      requires IsPaid(event) && SeatsLeft(event) != 0
      ensures booked == event
      ensures Panel(event, rsvpStatus) == BookButton(false, "Book Ticket")
    {
      booked := event;
    }
  }
}

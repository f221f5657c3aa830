# Eventistan core, modelled in Dafny

Eventistan is a React front end for planning events in Pakistan. Visitors browse events and vendors, book tickets or RSVP, and register as vendors. Organizers create events, manage participants and edit their profile. Almost all of it is view code. This project models the part that decides things:

- the top-level router, with its three views reserved for signed-in users;
- the filter chains of the event list, the vendor list and the participant table;
- the step wizards and the form records of the booking, create-event and vendor-registration forms, including the seat stepper, the payment rules and the string-list editors;
- the derived figures: participant counts, revenue, check-in rate, the CSV export, review selection, the star rule and the rating histogram, and the dashboard sums;
- the profile edit flow and its "My Events" filter.

One module corresponds to each source file. Shared helpers live in `Wrappers` (Option), `Seqs` (filter, count, sum, subsequence, toggle, set-at and remove-at), `Text` (ASCII lower case, substring, join, decimal digits), `Types` (the records of the type definitions) and `MockData` (the fixtures). `Wizard` holds the clamped step counter that three forms share.

Component state that handlers overwrite is a `class`. Each handler is a method whose `ensures` clauses give the whole new state, usually in terms of a pure function. The properties are proved about those functions as lemmas. The router is specified by `App.Apply` (one handler on a state) and `App.Offered` (the handlers the rendered screen wires up). Its gate invariant is proved over every run of offered handlers.

The event list and the vendor list have the same filter shape. Their subsequence, membership and no-filter lemmas are deliberate per-screen instances of the generic `Seqs` lemmas. In the same way, the `Buttons` methods of the create-event and vendor-registration forms are per-form instances of `Wizard.ControlsAt`.

Modelling conventions:

- Ratings such as 4.8 are integer tenths (48). `Math.floor(rating)` becomes `rating10 / 10`, which here is a floor.
- An optional numeric field is an `Option<int>`. JavaScript truthiness of a number means "present and not 0".
- `toLowerCase` lowers ASCII letters only. `includes` is a substring test.
- Percentages are exact: reals for the review histogram, and integer round-half-up for the check-in rate.

## Model

| member | source | states |
|---|---|---|
| App.Gated | src/App.tsx:38 | the three views `handleViewChange` refuses while signed out: dashboard, profile, create-event |
| App.GateHolds | src/App.tsx:37-41 | the router invariant the gate protects: a gated current view implies `isAuthenticated` |
| App.Apply | src/App.tsx:27-79 | one case per handler: login and register set the flag and the dashboard; view change with the gate of lines 38-43; event select and book ticket store the event and go to event-details or booking; vendor select stores the vendor only; booking complete stores the id and goes to booking-success; RSVP only logs, so the state is unchanged; event created goes to the dashboard; auth navigation sets the page and the view; the inline callbacks of lines 113, 124, 146, 155, 164 and 168 set their view |
| App.Render | src/App.tsx:82-169 | the guards in order: login, register and forgot-password by view alone; booking and booking-success only `&& selectedEvent`; otherwise the layout, whose main area shows events, event-details (with `&& selectedEvent`), create-event, vendors, dashboard and profile (each with `&& isAuthenticated`), or nothing |
| App.Offered | src/App.tsx:84-168 | the props each rendered screen receives: `onLogin`/`onRegister` and `onNavigate` on the auth forms, `onBack`/`onBookingComplete` on the booking form, `onBackToEvents` on the success page, and in the layout the header's `onViewChange` plus the main content's callbacks; the event page books and RSVPs only its own event |
| App.Run | src/App.tsx:27-79 | handlers applied one after another, in order |
| App.OfferedRun | src/App.tsx:82-169 | a run in which each handler is offered by the screen current when it is called |
| App.ViewChangeRule | src/App.tsx:37-44 | asking for dashboard, profile or create-event while signed out shows the login form and selects the login page; otherwise the view becomes exactly the one asked for (both directions); sign-in is untouched |
| App.LoginRegisterRule | src/App.tsx:27-35 | login sets `isAuthenticated` and shows the dashboard; register has exactly the same effect |
| App.SelectionRules | src/App.tsx:46-64 | event select stores the event and shows its page; book ticket stores the event and shows the booking form; booking complete stores the id and shows the success page, keeping the event; vendor select stores the vendor and leaves the view unchanged |
| App.OfferedKeepsGate | src/App.tsx:37-79 | every handler the current screen can call, including the create, cancel, dashboard and profile callbacks, keeps "a reserved view is current only when signed in" |
| App.CallbackNeedsGate | src/App.tsx:71-74 | the create-form callback goes to the dashboard without a check of its own: it is not offered at the start, and applied there it would break the gate |
| App.RunKeepsGate | src/App.tsx:20-22 | by induction over a run of offered handlers, the gate holds after the run if it held before |
| App.ReachableStatesKeepGate | src/App.tsx:20-22 | from the initial state (events view, signed out), every state that offered handlers reach keeps the gate |
| App.SignedInStaysSignedIn | src/App.tsx:22 | no sequence of handlers, offered or not, ever signs the user out |
| App.RenderGuards | src/App.tsx:109-127 | the booking screens render only with a selected event; the dashboard and profile content render only when signed in |
| App.ReachableGatedViewsRender | src/App.tsx:163-169 | in every reachable state, a current dashboard or profile view is actually rendered, because the gate makes its `isAuthenticated` guard true |
| App.Router.constructor | src/App.tsx:20-25 | the initial state: events view, login page, signed out, nothing selected, empty booking id; the gate holds |
| App.Router.HandleViewChange | src/App.tsx:37-44 | the new state is `Apply(old, ViewChange(view))`; the gate is kept |
| App.Router.HandleLogin | src/App.tsx:27-30 | the new state is `Apply(old, Login)`, reachable from the login screen |
| App.Router.HandleRegister | src/App.tsx:32-35 | the new state is `Apply(old, Register)`, reachable from the registration screen |
| App.Router.HandleEventSelect | src/App.tsx:46-49 | the new state is `Apply(old, EventSelect(e))`, from the event list |
| App.Router.HandleVendorSelect | src/App.tsx:51-54 | the new state is `Apply(old, VendorSelect(v))`, from the vendor list |
| App.Router.HandleBookTicket | src/App.tsx:56-59 | the new state is `Apply(old, BookTicket(event))` for the event whose page is shown |
| App.Router.HandleBookingComplete | src/App.tsx:61-64 | the new state is `Apply(old, BookingComplete(id))`, from the booking screen |
| App.Router.HandleEventCreated | src/App.tsx:71-74 | the new state is `Apply(old, EventCreated)`, from the create form; the gate is kept |
| App.Router.HandleAuthNavigation | src/App.tsx:76-79 | the new state is `Apply(old, AuthNavigate(page))`: the page is selected and shown |
| App.Router.HandleCallback | src/App.tsx:113 | the inline callbacks at lines 113, 124, 146, 155, 164 and 168, plus the RSVP handler: the state changes exactly as `Apply` says, and the gate is kept |
| EventList.IsActive | src/components/events/EventList.tsx:52-62 | `value && value !== allLabel`: a non-empty value other than the "All …" label |
| EventList.MatchesSearch | src/components/events/EventList.tsx:43-48 | the lower-cased query is a substring of the lower-cased title, description or city, or of some tag |
| EventList.HasPrice | src/components/events/EventList.tsx:64-67 | the truthiness of `event.price`: present and not 0 |
| EventList.InBucket | src/components/events/EventList.tsx:64-67 | Free is `!price`; Under 1,000 is `price && price < 1000`; 1,000–5,000 is `price && 1000 <= price <= 5000`; Above 5,000 is `price && price > 5000` |
| EventList.MatchesPrice | src/components/events/EventList.tsx:63-69 | the bucket named by the label; any other label passes every event (`return true`) |
| EventList.Matches | src/components/events/EventList.tsx:41-70 | the conjunction of the active predicates: search when the query is non-empty, city, type and price when their filter is active |
| EventList.Filtered | src/components/events/EventList.tsx:38-72 | the events, in order, that satisfy `Matches` |
| EventList.WithFilter | src/components/events/EventList.tsx:27-29 | the filter update changes exactly the named field |
| EventList.BucketsPartition | src/components/events/EventList.tsx:63-69 | a price lies in a bucket iff that bucket is its independent classification: Free (absent or 0), Under 1,000, 1,000–5,000 or Above 5,000; so the buckets are disjoint and cover every price |
| EventList.AllPassesAreMatches | src/components/events/EventList.tsx:41-70 | surviving the four guarded passes in order is the same as satisfying every active predicate |
| EventList.ApplyFilters | src/components/events/EventList.tsx:38-73 | the four guarded passes, applied in order, yield exactly the events that match all active predicates |
| EventList.FilteredIsSubsequence | src/components/events/EventList.tsx:39-72 | the result is an order-preserving subsequence of the events |
| EventList.FilteredMembership | src/components/events/EventList.tsx:43-70 | an event is in the result iff it is in the list and matches search, city, type and price bucket |
| EventList.NoFiltersShowAll | src/components/events/EventList.tsx:39-62 | with an empty query and every filter empty, the result is the whole list |
| EventList.DateIsIgnored | src/components/events/EventList.tsx:38-73 | the result does not depend on the stored date filter |
| EventList.LahoreCorporateFixture | src/components/events/EventList.tsx:52-59 | on the fixtures, Lahore plus corporate yields only the summit event (id 2) |
| EventList.LahoreFreeFixture | src/components/events/EventList.tsx:52-64 | on the fixtures, Lahore plus Free yields only the mehndi event (id 3) |
| EventList.EventListView.constructor | src/components/events/EventList.tsx:12-21 | both lists start as the fixture events, with no query and no filters |
| EventList.EventListView.HandleFilterChange | src/components/events/EventList.tsx:27-31 | one filter field changes, and the shown list is recomputed as the filtered list for the new filters |
| EventList.EventListView.HandleSearch | src/components/events/EventList.tsx:33-36 | the query is stored, and the shown list is recomputed with the old filters |
| VendorList.IsActive | src/components/vendors/VendorList.tsx:53-68 | `value && value !== allLabel` |
| VendorList.MatchesSearch | src/components/vendors/VendorList.tsx:44-49 | the lower-cased query is a substring of the lower-cased name, description or city, or of some service |
| VendorList.MeetsRating | src/components/vendors/VendorList.tsx:69-70 | `vendor.rating >= parseInt(label.charAt(0))`, in tenths: rating10 ≥ 10 × digit; a label without a leading digit (NaN) keeps nothing |
| VendorList.Matches | src/components/vendors/VendorList.tsx:42-71 | the conjunction of the active predicates: search, city, category, price range and rating |
| VendorList.Filtered | src/components/vendors/VendorList.tsx:39-73 | the vendors, in order, that satisfy `Matches` |
| VendorList.WithFilter | src/components/vendors/VendorList.tsx:28-30 | the filter update changes exactly the named field |
| VendorList.RatingThreshold | src/components/vendors/VendorList.tsx:69 | a threshold exists iff the label starts with a digit, and it is that digit's value |
| VendorList.AllPassesAreMatches | src/components/vendors/VendorList.tsx:42-71 | surviving the five guarded passes is the same as satisfying every active predicate |
| VendorList.ApplyFilters | src/components/vendors/VendorList.tsx:39-74 | the five guarded passes, applied in order, yield exactly the vendors that match all active predicates |
| VendorList.FilteredIsSubsequence | src/components/vendors/VendorList.tsx:40-73 | the result is an order-preserving subsequence of the vendors |
| VendorList.FilteredMembership | src/components/vendors/VendorList.tsx:43-71 | a vendor is in the result iff it is listed and matches the search (name, description, city or a service), city, category, price range and rating threshold |
| VendorList.NoFiltersShowAll | src/components/vendors/VendorList.tsx:40-68 | with no query and no filters, the result is the whole list |
| VendorList.RatingFiltersNest | src/components/vendors/VendorList.tsx:68-71 | a label with a higher threshold gives a subsequence of the result of a label with a lower one |
| VendorList.StarLabelsNest | src/components/vendors/VendorList.tsx:26 | the 4+ result is within the 3+ result, which is within the 2+ result |
| VendorList.FourStarsFixture | src/components/vendors/VendorList.tsx:68-71 | on the fixtures, "4+ Stars" keeps all three vendors |
| VendorList.VenueFixture | src/components/vendors/VendorList.tsx:58-60 | on the fixtures, category venue keeps only vendor id 2 |
| VendorList.VendorListView.constructor | src/components/vendors/VendorList.tsx:12-21 | both lists start as the fixture vendors, with no query and no filters |
| VendorList.VendorListView.HandleFilterChange | src/components/vendors/VendorList.tsx:28-32 | one filter field changes, and the shown list is refiltered |
| VendorList.VendorListView.HandleSearch | src/components/vendors/VendorList.tsx:34-37 | the query is stored, and the shown list is refiltered with the old filters |
| Wizard.Next | src/components/vendors/VendorRegistration.tsx:146 | `min(step + 1, last)`: one step forward, never past the last step |
| Wizard.Prev | src/components/vendors/VendorRegistration.tsx:147 | `max(step - 1, 1)`: one step back, never before step 1 |
| Wizard.StepInRange | src/components/events/CreateEventForm.tsx:58-59 | from a step in `[1, last]`, either move stays in `[1, last]` |
| Wizard.RunStaysInRange | src/components/vendors/VendorRegistration.tsx:14 | starting in range (the forms start at 1), any sequence of moves stays in `[1, last]` |
| Wizard.ForwardReaches | src/components/events/CreateEventForm.tsx:10 | from step 1, k presses of Next reach step k + 1 while k < last, so every step is reachable |
| Wizard.RunForwardFrom | src/components/events/CreateEventForm.tsx:58 | from any step, k presses of Next add k when that stays within the last step |
| Wizard.ControlsOnReachableSteps | src/components/vendors/VendorRegistration.tsx:729-759 | on steps in range, Previous appears iff the step is not 1; Next appears iff the step is before the last; submit appears iff it is the last; Next and submit never both appear |
| Booking.FewerSeats | src/components/booking/BookingForm.tsx:82 | `Math.max(1, seats - 1)` |
| Booking.MoreSeats | src/components/booking/BookingForm.tsx:90 | `Math.min(availableSeats, seats + 1)` |
| Booking.SeatsInRange | src/components/booking/BookingForm.tsx:15 | the seat counts the stepper can produce from 1: `[1, available]` when a seat is free, otherwise between `available` and 1 |
| Booking.ClickSeats | src/components/booking/BookingForm.tsx:80-94 | the seat count after a sequence of "−" and "+" clicks |
| Booking.CanProceedToPayment | src/components/booking/BookingForm.tsx:300-305 | name, email and phone all non-empty, and `seats > 0` |
| Booking.CanCompleteBooking | src/components/booking/BookingForm.tsx:307-322 | false with no method; jazzcash and easypaisa need that phone; wallet needs `totalAmount <= balance`; cash needs a location; any other name is false |
| Booking.OfferedMethods | src/components/booking/BookingForm.tsx:172 | `paymentMethods.filter(method => method.isActive)` |
| Booking.TotalAmount | src/components/booking/BookingForm.tsx:30 | the price (0 when absent) times the seats |
| Booking.AvailableSeats | src/components/booking/BookingForm.tsx:31 | the stored count when it is present and not 0, otherwise capacity minus attendees |
| Booking.SeatButtonsKeepRange | src/components/booking/BookingForm.tsx:82-90 | each stepper button keeps the seats in range; "−" gives 1 exactly when seats ≤ 2; "+" gives the maximum exactly when one seat short of it or more |
| Booking.ClicksKeepRange | src/components/booking/BookingForm.tsx:15 | from a count in range (the initial 1), any click sequence keeps it in range, and within `[1, available]` when at least one seat is free |
| Booking.OfferedMethodsCanComplete | src/components/booking/BookingForm.tsx:172-186 | every method the payment step lists is active, and choosing it (its `type` stored as the method) completes the booking once its phone or location is given, or the total is within the wallet balance |
| Booking.FixtureMethodsAllOffered | src/components/booking/BookingForm.tsx:172 | all four fixture methods are active, so the payment step lists all four, in order |
| Booking.ProceedSurvivesStepper | src/components/booking/BookingForm.tsx:300-305 | with contact details filled in and seats free, no stepper click disables "Continue to Payment" |
| Booking.FullEventBlocksProceed | src/components/booking/BookingForm.tsx:90 | when no seat is free, "+" sets the seats to at most 0, so the form cannot proceed |
| Booking.CompleteBookingRules | src/components/booking/BookingForm.tsx:307-322 | no method: false; jazzcash and easypaisa: iff that phone is filled in; wallet: iff the total is within the balance; cash: iff a location is given; any other name: false |
| Booking.FreeEventWalletCovers | src/components/booking/BookingForm.tsx:25 | a free event totals 0 for any seat count, so the initial wallet always covers it |
| Booking.TotalPerSeat | src/components/booking/BookingForm.tsx:30 | each extra seat adds one ticket price to the total |
| Booking.WeddingWalletFixture | src/components/booking/BookingForm.tsx:316 | on the fixtures, the 5000 wallet covers one Rs. 5000 wedding ticket but not two; the fixtures' available seats are 266, 433 and 155 |
| Booking.ZeroStoredSeatsFallsBack | src/components/booking/BookingForm.tsx:31 | a stored count of 0 is falsy, so capacity minus attendees is used |
| Booking.BookingId | src/components/booking/BookingForm.tsx:65 | the id is "BK" followed by at least one decimal digit |
| Booking.BookingIdRoundTrip | src/components/booking/BookingForm.tsx:65 | reading the digits after "BK" gives back the timestamp |
| Booking.BookingIdInjective | src/components/booking/BookingForm.tsx:65 | distinct timestamps give distinct ids |
| Booking.WithContact | src/components/booking/BookingForm.tsx:40-48 | the contact update changes exactly the named field |
| Booking.WithPaymentDetail | src/components/booking/BookingForm.tsx:50-61 | the payment-detail update changes exactly the named field of one method |
| Booking.BookingForm.constructor | src/components/booking/BookingForm.tsx:13-28 | step 1, one seat, no method, empty contact and details, wallet 5000 |
| Booking.BookingForm.DecrementSeats | src/components/booking/BookingForm.tsx:82 | seats become `max(1, seats − 1)`; nothing else changes; the invariant (step in {1, 2}, seats in range) is kept |
| Booking.BookingForm.IncrementSeats | src/components/booking/BookingForm.tsx:90 | seats become `min(available, seats + 1)`; nothing else changes; the invariant is kept |
| Booking.BookingForm.ChoosePaymentMethod | src/components/booking/BookingForm.tsx:186 | only the payment method changes |
| Booking.BookingForm.ChangeContactInfo | src/components/booking/BookingForm.tsx:129-157 | only one contact field changes |
| Booking.BookingForm.ChangePaymentDetails | src/components/booking/BookingForm.tsx:212-257 | only one payment-detail field changes |
| Booking.BookingForm.ContinueToPayment | src/components/booking/BookingForm.tsx:387-391 | from step 1 the new step is 2 iff `canProceedToPayment` holds (the button is disabled otherwise); the data is unchanged |
| Booking.BookingForm.Previous | src/components/booking/BookingForm.tsx:375-378 | shown only after step 1; returns to step 1 with the data unchanged |
| Booking.BookingForm.CompleteBooking | src/components/booking/BookingForm.tsx:63-69 | at step 2, an id is produced iff `canCompleteBooking` holds (lines 397-400), and that id is "BK" plus the timestamp |
| EventDetails.SeatsLeft | src/components/events/EventDetails.tsx:58 | `event.capacity - event.attendees` |
| EventDetails.IsPaid | src/components/events/EventDetails.tsx:287 | the truthiness of `event.price` |
| EventDetails.Panel | src/components/events/EventDetails.tsx:287-319 | a paid event shows the Book button, disabled and captioned "Sold Out" when `availableSeats === 0`, otherwise "Book Ticket"; a free one shows the three RSVP choices with the recorded status selected |
| EventDetails.SeatsMessage | src/components/events/EventDetails.tsx:281 | `availableSeats > 0 ? "N seats available" : "Event is full"` |
| EventDetails.ShowsThumbnails | src/components/events/EventDetails.tsx:104 | `event.gallery && event.gallery.length > 1` |
| EventDetails.SeatsLeftIgnoresStoredCount | src/components/events/EventDetails.tsx:58 | the page's seat figure ignores the stored count entirely |
| EventDetails.SeatCountsCanDisagree | src/components/events/EventDetails.tsx:58 | with a stored count, the page and the booking form agree iff the stored count equals capacity minus attendees |
| EventDetails.FixtureSeatCountsAgree | src/components/events/EventDetails.tsx:58 | on the fixtures both figures agree: 266, 433 and 155 |
| EventDetails.PanelRules | src/components/events/EventDetails.tsx:287-319 | a Book button appears iff the price is truthy, otherwise the three RSVP choices with the recorded status; the button is disabled and reads "Sold Out" iff no seats are left (lines 290, 294) |
| EventDetails.OverbookedStaysBookable | src/components/events/EventDetails.tsx:290 | a paid event with more attendees than capacity still shows an enabled "Book Ticket", because the test is `=== 0` |
| EventDetails.FixturePanels | src/components/events/EventDetails.tsx:287-294 | on the fixtures, the wedding and summit offer booking and the free mehndi offers RSVP |
| EventDetails.SeatsMessageRule | src/components/events/EventDetails.tsx:281 | "Event is full" iff no seat is left, otherwise "N seats available" |
| EventDetails.MainImage | src/components/events/EventDetails.tsx:78 | `gallery?.[index] \|\| image`: the gallery entry when the gallery has one at that index and it is non-empty, otherwise the event image; so always the event image or a non-empty gallery entry |
| EventDetails.ThumbnailShowsItsImage | src/components/events/EventDetails.tsx:104-109 | after a thumbnail click on index i, the main image is gallery entry i if it is non-empty, otherwise the event image |
| EventDetails.EventDetailsView.constructor | src/components/events/EventDetails.tsx:13-15 | image index 0, no RSVP, not liked |
| EventDetails.EventDetailsView.SelectImage | src/components/events/EventDetails.tsx:104-109 | only when thumbnails are shown; the index becomes the clicked one and nothing else changes |
| EventDetails.EventDetailsView.ToggleLike | src/components/events/EventDetails.tsx:89 | the like flag flips and nothing else changes |
| EventDetails.EventDetailsView.HandleRsvp | src/components/events/EventDetails.tsx:38-41 | only for a free event; the status is recorded and `(event.id, status)` is forwarded unchanged |
| EventDetails.EventDetailsView.BookTicket | src/components/events/EventDetails.tsx:289 | only when the button is enabled; the event itself is handed to the router |
| VendorRegistration.EditList | src/components/vendors/VendorRegistration.tsx:85-106 | change maps `i === index ? value : item`; add appends `''`; remove filters out position `index` |
| VendorRegistration.Offered | src/components/vendors/VendorRegistration.tsx:369-599 | a row, and so a change, exists for each index; add is always offered; remove only while the list has more than one row |
| VendorRegistration.TogglePaymentMethod | src/components/vendors/VendorRegistration.tsx:131-138 | `includes(method) ? filter(m => m !== method) : [...methods, method]` |
| VendorRegistration.InitialHours | src/components/vendors/VendorRegistration.tsx:40-48 | 09:00–18:00 open Monday to Friday, 10:00–16:00 on Saturday and Sunday, Sunday closed |
| VendorRegistration.ListEditEffects | src/components/vendors/VendorRegistration.tsx:85-106 | change keeps the length, writes the value at the index and keeps every other position; add appends "" and keeps the prefix; remove deletes exactly the element at an in-range index (length − 1) and changes nothing otherwise |
| VendorRegistration.OfferedEditsKeepRows | src/components/vendors/VendorRegistration.tsx:369-599 | remove is offered only when a list has more than one row, so lists that start as `['']` never become empty under offered edits |
| VendorRegistration.PaymentToggleRules | src/components/vendors/VendorRegistration.tsx:131-138 | the toggle flips membership of the chosen method, leaves the others unchanged, is undone by a second toggle, and keeps a list free of duplicates |
| VendorRegistration.TogglesKeepNoDuplicates | src/components/vendors/VendorRegistration.tsx:56 | from the initial `[]`, any sequence of toggles leaves no duplicates |
| VendorRegistration.WithHours | src/components/vendors/VendorRegistration.tsx:108-119 | the hours update changes exactly one field of the day's record |
| VendorRegistration.WithSocialLink | src/components/vendors/VendorRegistration.tsx:121-129 | the social-link update changes exactly one platform |
| VendorRegistration.RegistrationForm.constructor | src/components/vendors/VendorRegistration.tsx:14-61 | step 1, empty text fields, every list `['']`, default hours, empty links, no payment methods |
| VendorRegistration.RegistrationForm.HandleInputChange | src/components/vendors/VendorRegistration.tsx:78-83 | only the named text field changes |
| VendorRegistration.RegistrationForm.HandleListEdit | src/components/vendors/VendorRegistration.tsx:85-106 | only the named list changes, by the edit; lists stay non-empty |
| VendorRegistration.RegistrationForm.HandlePaymentMethodToggle | src/components/vendors/VendorRegistration.tsx:131-138 | only the payment methods change, by the toggle; no duplicates arise |
| VendorRegistration.RegistrationForm.HandleBusinessHoursChange | src/components/vendors/VendorRegistration.tsx:108-119 | only one day's hours change |
| VendorRegistration.RegistrationForm.HandleSocialLinksChange | src/components/vendors/VendorRegistration.tsx:121-129 | only one social link changes |
| VendorRegistration.RegistrationForm.NextStep | src/components/vendors/VendorRegistration.tsx:146 | the step becomes `min(step + 1, 4)`; the data is unchanged |
| VendorRegistration.RegistrationForm.PrevStep | src/components/vendors/VendorRegistration.tsx:147 | the step becomes `max(step − 1, 1)`; the data is unchanged |
| VendorRegistration.RegistrationForm.Buttons | src/components/vendors/VendorRegistration.tsx:729-759 | Previous iff step > 1; Next iff step < 4; submit iff step 4 |
| CreateEvent.InitialFormData | src/components/events/CreateEventForm.tsx:11-30 | the 18 fields; `isPublic` is true, `seatingArrangement` is "open", and every other field is "" |
| CreateEvent.ChangedValue | src/components/events/CreateEventForm.tsx:47 | a checkbox stores its boolean `checked`; any other input stores its string value |
| CreateEvent.CreateEventForm.constructor | src/components/events/CreateEventForm.tsx:10-30 | step 1 with the initial record |
| CreateEvent.CreateEventForm.HandleChange | src/components/events/CreateEventForm.tsx:43-49 | only the named field changes, to the changed value |
| CreateEvent.CreateEventForm.NextStep | src/components/events/CreateEventForm.tsx:58 | the step becomes `min(step + 1, 3)`; the data is unchanged |
| CreateEvent.CreateEventForm.PrevStep | src/components/events/CreateEventForm.tsx:59 | the step becomes `max(step − 1, 1)`; the data is unchanged |
| CreateEvent.CreateEventForm.Buttons | src/components/events/CreateEventForm.tsx:436-471 | Previous iff step > 1; Next iff step < 3; "Create Event" iff step 3 |
| CreateEvent.CreateEventForm.Submit | src/components/events/CreateEventForm.tsx:51-56 | only at step 3; the whole record is handed on |
| MyEventDetails.Participants | src/components/events/MyEventDetails.tsx:28 | `event.participants \|\| []` |
| MyEventDetails.MatchesParticipant | src/components/events/MyEventDetails.tsx:31-34 | the filter is 'all' or equals the status, and the lower-cased search is in the lower-cased name or email |
| MyEventDetails.FilteredParticipants | src/components/events/MyEventDetails.tsx:30-35 | the participants, in order, that satisfy `MatchesParticipant` |
| MyEventDetails.Stats | src/components/events/MyEventDetails.tsx:37-44 | the total, the three status counts, the `checked-in` count and the `completed` payment count |
| MyEventDetails.Revenue | src/components/events/MyEventDetails.tsx:461 | `(event.price \|\| 0) * participantStats.paid` |
| MyEventDetails.CheckInRate | src/components/events/MyEventDetails.tsx:476-479 | `going > 0 ? round(checkedIn / going * 100) : 0`, with the rounding done exactly on integers |
| MyEventDetails.SelectParticipant | src/components/events/MyEventDetails.tsx:79-85 | `includes(id) ? filter(x => x !== id) : [...prev, id]` |
| MyEventDetails.SelectAll | src/components/events/MyEventDetails.tsx:87-93 | `[]` when the selected count equals the listed count, otherwise the listed ids |
| MyEventDetails.PaymentCell | src/components/events/MyEventDetails.tsx:109 | `paymentStatus \|\| 'N/A'` |
| MyEventDetails.CheckInCell | src/components/events/MyEventDetails.tsx:110 | `checkInStatus \|\| 'N/A'` |
| MyEventDetails.Csv | src/components/events/MyEventDetails.tsx:100-113 | the header row, then one row per listed participant, each joined by `,`, all joined by `\n` |
| MyEventDetails.FilteredParticipantsRule | src/components/events/MyEventDetails.tsx:30-35 | an order-preserving subsequence holding exactly the participants whose status matches the filter ('all' matches all) and whose name or email contains the search, ignoring case |
| MyEventDetails.NoFilterListsEveryone | src/components/events/MyEventDetails.tsx:24-25 | the initial filter and search list every participant |
| MyEventDetails.StatusCountsAddUp | src/components/events/MyEventDetails.tsx:39-41 | going, maybe and not-going counts add up to the number of participants |
| MyEventDetails.StatsConsistent | src/components/events/MyEventDetails.tsx:37-44 | going + maybe + notGoing = total; checkedIn ≤ total; paid ≤ total |
| MyEventDetails.RevenueBounds | src/components/events/MyEventDetails.tsx:461 | revenue is 0 without a price, and between 0 and price × participants otherwise |
| MyEventDetails.CheckInRateBounds | src/components/events/MyEventDetails.tsx:476-479 | the rate is 0 when nobody is going, 100 when everyone going checked in, and at most 100 when check-ins do not exceed going |
| MyEventDetails.SelectParticipantRule | src/components/events/MyEventDetails.tsx:79-85 | the clicked id's membership flips and every other id keeps its membership |
| MyEventDetails.SelectAllRule | src/components/events/MyEventDetails.tsx:87-93 | equal counts clear the selection; otherwise the selection becomes the listed ids, in order |
| MyEventDetails.SelectAllComparesCounts | src/components/events/MyEventDetails.tsx:88 | a selection of one stale id against one listed participant is cleared, not replaced: the test is by count |
| MyEventDetails.Row | src/components/events/MyEventDetails.tsx:103-112 | eight cells, with payment "N/A" iff no payment status and check-in "N/A" iff no check-in status |
| MyEventDetails.RowLines | src/components/events/MyEventDetails.tsx:113 | one comma-joined line per participant |
| MyEventDetails.RowLinesHaveNoNewlines | src/components/events/MyEventDetails.tsx:113 | rows with newline-free cells give newline-free lines |
| MyEventDetails.CsvLineCount | src/components/events/MyEventDetails.tsx:100-113 | the CSV has exactly one newline per listed participant: a header line plus one line each |
| MyEventDetails.HeaderHasNoNewlines | src/components/events/MyEventDetails.tsx:102 | the header cells contain no newline |
| MyEventDetails.RowHasEightFields | src/components/events/MyEventDetails.tsx:113 | a line built from comma-free cells has exactly 7 commas, so 8 fields |
| MyEventDetails.MyEventDetailsView.constructor | src/components/events/MyEventDetails.tsx:24-26 | filter 'all', empty search, empty selection |
| MyEventDetails.MyEventDetailsView.SetParticipantFilter | src/components/events/MyEventDetails.tsx:288 | only the filter changes |
| MyEventDetails.MyEventDetailsView.SetSearch | src/components/events/MyEventDetails.tsx:280 | only the search changes |
| MyEventDetails.MyEventDetailsView.HandleSelectParticipant | src/components/events/MyEventDetails.tsx:79-85 | the selection becomes the toggle of the id |
| MyEventDetails.MyEventDetailsView.HandleSelectAll | src/components/events/MyEventDetails.tsx:87-93 | the selection becomes the select-all result for the listed participants |
| MyEventDetails.MyEventDetailsView.ExportParticipants | src/components/events/MyEventDetails.tsx:100-113 | returns the CSV of the listed participants and changes nothing |
| VendorDetails.ReviewsOf | src/components/vendors/VendorDetails.tsx:23 | `reviews.filter(review => review.vendorId === vendor.id)` |
| VendorDetails.WholeStars | src/components/vendors/VendorDetails.tsx:30 | `Math.floor(rating)`, on ratings in tenths |
| VendorDetails.Stars | src/components/vendors/VendorDetails.tsx:25-36 | five stars, star `index` filled iff `index < Math.floor(rating)` |
| VendorDetails.BucketCount | src/components/vendors/VendorDetails.tsx:247 | the number of reviews with `Math.floor(r.rating) === stars` |
| VendorDetails.Histogram | src/components/vendors/VendorDetails.tsx:246-247 | the bucket counts for 5, 4, 3, 2 and 1 stars, in that order |
| VendorDetails.Percentage | src/components/vendors/VendorDetails.tsx:248 | `reviews.length > 0 ? count / reviews.length * 100 : 0` |
| VendorDetails.ShownReviews | src/components/vendors/VendorDetails.tsx:270 | `reviews.slice(0, showAllReviews ? reviews.length : 3)` |
| VendorDetails.OffersToggle | src/components/vendors/VendorDetails.tsx:317 | `reviews.length > 3` |
| VendorDetails.ReviewsOfRule | src/components/vendors/VendorDetails.tsx:23 | the vendor's reviews are an order-preserving subsequence holding exactly those with its id |
| VendorDetails.FilledPrefix | src/components/vendors/VendorDetails.tsx:26-30 | among n stars with "index < m" filled, `min(n, max(0, m))` are filled |
| VendorDetails.FilledStars | src/components/vendors/VendorDetails.tsx:25-36 | the filled count is `min(5, max(0, floor(rating)))` |
| VendorDetails.StarsFixture | src/components/vendors/VendorDetails.tsx:30 | a 4.8 rating fills 4 stars and a 5.0 rating fills 5 |
| VendorDetails.HistogramAtMostReviews | src/components/vendors/VendorDetails.tsx:246-247 | the five buckets, each counting the reviews whose floor is that star, together count at most the reviews |
| VendorDetails.PercentageBounds | src/components/vendors/VendorDetails.tsx:248 | 0 without reviews (the division is guarded), and within `[0, 100]` for a count not above the total |
| VendorDetails.ShownReviewsRule | src/components/vendors/VendorDetails.tsx:270-326 | expanded shows all; collapsed shows the first `min(3, n)`; without the toggle (n ≤ 3) collapsed already shows all; with it, collapsed shows 3 of more |
| VendorDetails.VendorDetailsView.constructor | src/components/vendors/VendorDetails.tsx:18-23 | index 0, overview tab, not liked, collapsed, the vendor's own reviews |
| VendorDetails.VendorDetailsView.MainImage | src/components/vendors/VendorDetails.tsx:476 | the gallery entry at the selected index, or none for an empty gallery |
| VendorDetails.VendorDetailsView.SelectImage | src/components/vendors/VendorDetails.tsx:508-513 | only when thumbnails are shown; the index becomes the clicked one |
| VendorDetails.VendorDetailsView.SelectTab | src/components/vendors/VendorDetails.tsx:563 | only the tab changes |
| VendorDetails.VendorDetailsView.ToggleLike | src/components/vendors/VendorDetails.tsx:493 | only the like flag flips |
| VendorDetails.VendorDetailsView.ToggleShowAll | src/components/vendors/VendorDetails.tsx:317-320 | only when offered (more than 3 reviews); only the flag flips |
| VendorDetails.VendorDetailsView.Shown | src/components/vendors/VendorDetails.tsx:270 | the shown slice, all of whose reviews belong to this vendor |
| Profile.ApplyEdits | src/components/profile/UserProfile.tsx:19-24 | the profile after a sequence of `handleInputChange` calls, in order |
| Profile.OrganizedBy | src/components/profile/UserProfile.tsx:210 | `event.organizer.id === profileData.id` |
| Profile.MyEvents | src/components/profile/UserProfile.tsx:210 | `mockEvents.filter(event => event.organizer.id === profileData.id)` |
| Profile.WithField | src/components/profile/UserProfile.tsx:19-24 | the field update changes exactly the named field |
| Profile.EditsKeepIdentity | src/components/profile/UserProfile.tsx:54-182 | no sequence of the form's edits changes the id, role, joined date or preferences |
| Profile.MyEventsRule | src/components/profile/UserProfile.tsx:210 | My Events is an order-preserving subsequence holding exactly the events the user organizes |
| Profile.MyEventsStableUnderEdits | src/components/profile/UserProfile.tsx:210 | My Events is the same after any edits |
| Profile.MyEventsFixture | src/components/profile/UserProfile.tsx:210 | on the fixtures, the mock user organizes all three events |
| Profile.ProfileView.constructor | src/components/profile/UserProfile.tsx:10-12 | not editing, profile tab, the mock user |
| Profile.ProfileView.StartEditing | src/components/profile/UserProfile.tsx:283 | editing starts with the data unchanged |
| Profile.ProfileView.HandleInputChange | src/components/profile/UserProfile.tsx:19-24 | while editing, only the named field changes |
| Profile.ProfileView.Save | src/components/profile/UserProfile.tsx:14-17 | editing ends; the data is kept |
| Profile.ProfileView.Cancel | src/components/profile/UserProfile.tsx:267 | editing ends, and the edited values are not restored |
| Profile.ProfileView.SelectTab | src/components/profile/UserProfile.tsx:307 | only the tab changes |
| Dashboard.StatsOf | src/components/dashboard/Dashboard.tsx:14-36 | `userEvents.length`, the sum of `attendees`, and the sum of `price \|\| 0` |
| Dashboard.StatsAdd | src/components/dashboard/Dashboard.tsx:14-36 | each of the three figures adds over a concatenation of event lists |
| Dashboard.RevenueIsPerEvent | src/components/dashboard/Dashboard.tsx:31 | an event adds its price (0 when absent) to the revenue, whatever its attendees |
| Dashboard.StatsNonNegative | src/components/dashboard/Dashboard.tsx:24-31 | non-negative attendees and prices give non-negative totals |
| Dashboard.FixtureStats | src/components/dashboard/Dashboard.tsx:12-31 | on the fixtures: 3 events, 946 attendees, Rs. 7,500 |

## Left out

- Rendering beyond the guards and the enabled or disabled state of the controls: JSX, CSS classes, icons, menu toggles, and the card, header and layout components.
- LoginForm.tsx and RegisterForm.tsx are not part of this model. The router models their two callbacks only.
- ForgotPasswordForm.tsx: two flags flipped by a timer. BookingSuccess.tsx: date formatting, sharing and the clipboard.
- Timers and clocks. In the booking form the 2000 ms delay before `onBookingComplete` is left out, and `Date.now()` becomes the `timestamp` parameter of `Booking.BookingForm.CompleteBooking`. The year arithmetic on `new Date()` in the vendor page is left out.
- `formatBusinessHours` in the vendor page: it depends on the current date and calls a method that dates do not have.
- Locale formatting. The CSV's joined date is the `formatDate` parameter of `MyEventDetails.MyEventDetailsView.ExportParticipants`. Number and date formatting elsewhere is not modelled.
- Floating point. The capacity and status bar percentages and `Math.round` of the event pages and the analytics tab are left out. So are the dashboard's `Math.floor(capacity * 0.1)` and `capacity * 0.05` figures.
- MyEventDetails.CheckInRateBounds: the rate is integer round-half-up, not a float divided and then rounded.
- VendorDetails.PercentageBounds: the percentage is an exact real, not a float.
- Browser side effects: the Blob download of the CSV, share, clipboard, `alert`, `console.log`, the vendor-contact callback, and `handleBulkAction`, which only logs.
- The review fixtures that the vendor page imports are not among the exported fixtures. The reviews are a parameter of `VendorDetails.VendorDetailsView.constructor`.
- Fixtures are reduced to the fields the model reads. The event fixtures lack `status`, `createdAt` and `updatedAt`, which the event type requires, and the vendor fixtures lack some contact and verification fields. Image URLs are shortened.
- Field names as strings. A filter, contact, payment-detail, profile, day or platform field name is a closed datatype of the names the views pass, not an arbitrary string. `App.ViewType` holds only the eleven declared views, so a view name outside that type, which `handleViewChange` would store by a cast, is not modelled.
- Tab switches that only choose what is displayed, such as the dashboard's and the participant page's tabs, are left out. The vendor page's and profile's tabs are modelled as a field.
- Unicode case folding and normalisation: `Text.Lower` lowers ASCII letters only.

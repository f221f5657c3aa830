/**
 * The top-level router: six pieces of state, the handlers that overwrite
 * them, and the render guards that pick the screen and decide which
 * handlers that screen can call. Three views are reserved for signed-in
 * users.
 */
module App {
  import opened Wrappers
  import opened Types

  /** `ViewType`. */
  datatype ViewType =
    | EventsView | EventDetailsView | CreateEventView | VendorsView | DashboardView | ProfileView
    | LoginView | RegisterView | ForgotPasswordView | BookingView | BookingSuccessView
  {
    function Name(): string {
      match this
      case EventsView => "events"
      case EventDetailsView => "event-details"
      case CreateEventView => "create-event"
      case VendorsView => "vendors"
      case DashboardView => "dashboard"
      case ProfileView => "profile"
      case LoginView => "login"
      case RegisterView => "register"
      case ForgotPasswordView => "forgot-password"
      case BookingView => "booking"
      case BookingSuccessView => "booking-success"
    }
  }

  /** `AuthPage`. */
  datatype AuthPage = LoginPage | RegisterPage | ForgotPasswordPage {
    /** The view of the same name. */
    function View(): ViewType {
      match this
      case LoginPage => LoginView
      case RegisterPage => RegisterView
      case ForgotPasswordPage => ForgotPasswordView
    }
  }

  /** The views `handleViewChange` refuses to show to a visitor who is not signed in. */
  predicate Gated(v: ViewType) {
    v == DashboardView || v == ProfileView || v == CreateEventView
  }

  datatype RouterState = RouterState(
    currentView: ViewType,
    authPage: AuthPage,
    isAuthenticated: bool,
    selectedEvent: Option<Event>,
    selectedVendor: Option<Vendor>,
    bookingId: string)

  const Initial: RouterState := RouterState(EventsView, LoginPage, false, None, None, "")

  /** Every handler of the router and every callback it hands to a child screen. */
  datatype Action =
    | ViewChange(view: ViewType)          // handleViewChange, from the header and the footer
    | Login                               // handleLogin
    | Register                            // handleRegister
    | EventSelect(event: Event)           // handleEventSelect
    | VendorSelect(vendor: Vendor)        // handleVendorSelect
    | BookTicket(event: Event)            // handleBookTicket
    | BookingComplete(id: string)         // handleBookingComplete
    | Rsvp(eventId: string, status: RsvpStatus)  // handleRSVP
    | EventCreated                        // handleEventCreated
    | AuthNavigate(page: AuthPage)        // handleAuthNavigation
    | BookingBack                         // the booking form's onBack
    | BookingSuccessBack                  // the success page's onBackToEvents
    | DetailsBack                         // the event page's onBack
    | CreateCancel                        // the create form's onCancel
    | DashboardCreateEvent                // the dashboard's onCreateEvent
    | ProfileBack                         // the profile's onBack

  /** The new state after one handler. */
  function Apply(s: RouterState, a: Action): RouterState {
    match a
    case ViewChange(v) =>
      if Gated(v) && !s.isAuthenticated then s.(authPage := LoginPage, currentView := LoginView)
      else s.(currentView := v)
    case Login => s.(isAuthenticated := true, currentView := DashboardView)
    case Register => s.(isAuthenticated := true, currentView := DashboardView)
    case EventSelect(e) => s.(selectedEvent := Some(e), currentView := EventDetailsView)
    case VendorSelect(v) => s.(selectedVendor := Some(v))
    case BookTicket(e) => s.(selectedEvent := Some(e), currentView := BookingView)
    case BookingComplete(id) => s.(bookingId := id, currentView := BookingSuccessView)
    case Rsvp(_, _) => s
    case EventCreated => s.(currentView := DashboardView)
    case AuthNavigate(page) => s.(authPage := page, currentView := page.View())
    case BookingBack => s.(currentView := EventDetailsView)
    case BookingSuccessBack => s.(currentView := EventsView)
    case DetailsBack => s.(currentView := EventsView)
    case CreateCancel => s.(currentView := DashboardView)
    case DashboardCreateEvent => s.(currentView := CreateEventView)
    case ProfileBack => s.(currentView := DashboardView)
  }

  /** What the main area of the layout shows. */
  datatype MainContent =
    | EventListContent | EventDetailsContent | CreateEventContent | VendorListContent
    | DashboardContent | ProfileContent | NoContent

  /** The screen the router renders. */
  datatype Screen =
    | LoginScreen | RegisterScreen | ForgotPasswordScreen | BookingScreen | BookingSuccessScreen
    | MainLayout(content: MainContent)

  /** The render guards, in the order the router tests them. */
  function Render(s: RouterState): Screen {
    if s.currentView == LoginView then LoginScreen
    else if s.currentView == RegisterView then RegisterScreen
    else if s.currentView == ForgotPasswordView then ForgotPasswordScreen
    else if s.currentView == BookingView && s.selectedEvent.Some? then BookingScreen
    else if s.currentView == BookingSuccessView && s.selectedEvent.Some? then BookingSuccessScreen
    else MainLayout(
      if s.currentView == EventsView then EventListContent
      else if s.currentView == EventDetailsView && s.selectedEvent.Some? then EventDetailsContent
      else if s.currentView == CreateEventView then CreateEventContent
      else if s.currentView == VendorsView then VendorListContent
      else if s.currentView == DashboardView && s.isAuthenticated then DashboardContent
      else if s.currentView == ProfileView && s.isAuthenticated then ProfileContent
      else NoContent)
  }

  /**
   * The handlers the rendered screen can call: the auth forms call the
   * login, register and auth-navigation handlers, the booking screens their
   * two callbacks, and the main layout the header's view change plus the
   * callbacks of the content it shows. The event page books the event it
   * shows.
   */
  predicate Offered(s: RouterState, a: Action) {
    match Render(s)
    case LoginScreen => a.Login? || a.AuthNavigate?
    case RegisterScreen => a.Register? || a.AuthNavigate?
    case ForgotPasswordScreen => a.AuthNavigate?
    case BookingScreen => a.BookingBack? || a.BookingComplete?
    case BookingSuccessScreen => a.BookingSuccessBack?
    case MainLayout(content) =>
      || a.ViewChange?
      || match content
         case EventListContent => a.EventSelect?
         case EventDetailsContent =>
           || a.DetailsBack?
           || (a.BookTicket? && Some(a.event) == s.selectedEvent)
           || (a.Rsvp? && a.eventId == s.selectedEvent.value.id)
         case CreateEventContent => a.EventCreated? || a.CreateCancel?
         case VendorListContent => a.VendorSelect?
         case DashboardContent => a.DashboardCreateEvent?
         case ProfileContent => a.ProfileBack?
         case NoContent => false
  }

  /** The router's safety property: a reserved view is current only for a signed-in user. */
  predicate GateHolds(s: RouterState) {
    Gated(s.currentView) ==> s.isAuthenticated
  }

  /**
   * `handleViewChange`: a reserved view requested while signed out leads to
   * the login form (and selects the login page); any other request shows
   * exactly the requested view.
   */
  lemma ViewChangeRule(s: RouterState, v: ViewType)
    ensures Gated(v) && !s.isAuthenticated ==>
      Apply(s, ViewChange(v)).currentView == LoginView && Apply(s, ViewChange(v)).authPage == LoginPage
    ensures Apply(s, ViewChange(v)).currentView == v <==> s.isAuthenticated || !Gated(v)
    ensures Apply(s, ViewChange(v)).isAuthenticated == s.isAuthenticated
  {
  }

  /** `handleLogin` and `handleRegister` sign the user in and show the dashboard. */
  lemma LoginRegisterRule(s: RouterState)
    ensures Apply(s, Login).isAuthenticated && Apply(s, Login).currentView == DashboardView
    ensures Apply(s, Register) == Apply(s, Login)
  {
  }

  /**
   * Selecting an event shows its page, booking shows the form for the
   * event, completing a booking stores the id and shows the success page;
   * selecting a vendor stores it and leaves the view as it was.
   */
  lemma SelectionRules(s: RouterState, e: Event, v: Vendor, id: string)
    ensures Apply(s, EventSelect(e)).selectedEvent == Some(e) && Apply(s, EventSelect(e)).currentView == EventDetailsView
    ensures Apply(s, BookTicket(e)).selectedEvent == Some(e) && Apply(s, BookTicket(e)).currentView == BookingView
    ensures Apply(s, BookingComplete(id)).bookingId == id && Apply(s, BookingComplete(id)).currentView == BookingSuccessView
    ensures Apply(s, BookingComplete(id)).selectedEvent == s.selectedEvent
    ensures Apply(s, VendorSelect(v)).selectedVendor == Some(v) && Apply(s, VendorSelect(v)).currentView == s.currentView
  {
  }

  /** Every handler the current screen offers keeps the gate. */
  lemma OfferedKeepsGate(s: RouterState, a: Action)
    requires GateHolds(s) && Offered(s, a)
    ensures GateHolds(Apply(s, a))
  {
  }

  /**
   * The create form's callbacks go to the dashboard with no check of
   * their own: only the gate on the create form itself keeps them safe.
   * Called from the signed-out start they would break the gate.
   */
  lemma CallbackNeedsGate()
    ensures !Offered(Initial, EventCreated)
    ensures !GateHolds(Apply(Initial, EventCreated))
  {
  }

  /** A run of handlers, each offered by the screen that is current when it is called. */
  predicate OfferedRun(s: RouterState, actions: seq<Action>)
    decreases |actions|
  {
    actions == [] || (Offered(s, actions[0]) && OfferedRun(Apply(s, actions[0]), actions[1..]))
  }

  function Run(s: RouterState, actions: seq<Action>): RouterState
    decreases |actions|
  {
    if actions == [] then s else Run(Apply(s, actions[0]), actions[1..])
  }

  /** From the start (or any state where it holds) the gate holds after every run the screens allow. */
  lemma {:induction false} RunKeepsGate(s: RouterState, actions: seq<Action>)
    requires GateHolds(s) && OfferedRun(s, actions)
    ensures GateHolds(Run(s, actions))
    decreases |actions|
  {
    if actions != [] {
      OfferedKeepsGate(s, actions[0]);
      RunKeepsGate(Apply(s, actions[0]), actions[1..]);
    }
  }

  lemma ReachableStatesKeepGate(actions: seq<Action>)
    requires OfferedRun(Initial, actions)
    ensures GateHolds(Run(Initial, actions))
  {
    RunKeepsGate(Initial, actions);
  }

  /** No handler signs the user out, whatever the order of the calls. */
  lemma {:induction false} SignedInStaysSignedIn(s: RouterState, actions: seq<Action>)
    requires s.isAuthenticated
    ensures Run(s, actions).isAuthenticated
    decreases |actions|
  {
    if actions != [] {
      assert Apply(s, actions[0]).isAuthenticated;
      SignedInStaysSignedIn(Apply(s, actions[0]), actions[1..]);
    }
  }

  /**
   * The screens the guards allow: the booking screens only with a selected
   * event, the dashboard and the profile only for a signed-in user.
   */
  lemma RenderGuards(s: RouterState)
    ensures Render(s) == BookingScreen ==> s.currentView == BookingView && s.selectedEvent.Some?
    ensures Render(s) == BookingSuccessScreen ==> s.currentView == BookingSuccessView && s.selectedEvent.Some?
    ensures Render(s) == MainLayout(DashboardContent) ==> s.currentView == DashboardView && s.isAuthenticated
    ensures Render(s) == MainLayout(ProfileContent) ==> s.currentView == ProfileView && s.isAuthenticated
  {
  }

  /** On a state the screens can reach, the dashboard and the profile views are always rendered. */
  lemma ReachableGatedViewsRender(actions: seq<Action>)
    requires OfferedRun(Initial, actions)
    ensures Run(Initial, actions).currentView == DashboardView ==> Render(Run(Initial, actions)) == MainLayout(DashboardContent)
    ensures Run(Initial, actions).currentView == ProfileView ==> Render(Run(Initial, actions)) == MainLayout(ProfileContent)
  {
    ReachableStatesKeepGate(actions);
  }

  /** The router component: its six state fields and its handlers. */
  class Router {
    var currentView: ViewType
    var authPage: AuthPage
    var isAuthenticated: bool
    var selectedEvent: Option<Event>
    var selectedVendor: Option<Vendor>
    var bookingId: string

    function State(): RouterState
      reads this
    {
      RouterState(currentView, authPage, isAuthenticated, selectedEvent, selectedVendor, bookingId)
    }

    ghost predicate Valid()
      reads this
    {
      GateHolds(State())
    }

    constructor ()
      ensures State() == Initial && Valid()
    {
      currentView := EventsView;
      authPage := LoginPage;
      isAuthenticated := false;
      selectedEvent := None;
      selectedVendor := None;
      bookingId := "";
    }

    /** Overwrites the fields with a new state. */
    method Set(t: RouterState)
      modifies this
      ensures State() == t
    {
      currentView, authPage, isAuthenticated := t.currentView, t.authPage, t.isAuthenticated;
      selectedEvent, selectedVendor, bookingId := t.selectedEvent, t.selectedVendor, t.bookingId;
    }

    /** `handleViewChange`, offered by the header and the footer of the main layout. */
    method HandleViewChange(view: ViewType)
      requires Valid() && Render(State()).MainLayout?
      modifies this
      ensures State() == Apply(old(State()), ViewChange(view)) && Valid()
    {
      if (view == DashboardView || view == ProfileView || view == CreateEventView) && !isAuthenticated {
        authPage := LoginPage;
        currentView := LoginView;
      } else {
        currentView := view;
      }
    }

    /** `handleLogin`, from the login form. */
    method HandleLogin()
      requires Valid() && Render(State()) == LoginScreen
      modifies this
      ensures State() == Apply(old(State()), Login) && Valid()
    {
      isAuthenticated := true;
      currentView := DashboardView;
    }

    /** `handleRegister`, from the registration form. */
    method HandleRegister()
      requires Valid() && Render(State()) == RegisterScreen
      modifies this
      ensures State() == Apply(old(State()), Register) && Valid()
    {
      isAuthenticated := true;
      currentView := DashboardView;
    }

    /** `handleEventSelect`, from the event list. */
    method HandleEventSelect(e: Event)
      requires Valid() && Render(State()) == MainLayout(EventListContent)
      modifies this
      ensures State() == Apply(old(State()), EventSelect(e)) && Valid()
    {
      selectedEvent := Some(e);
      currentView := EventDetailsView;
    }

    /** `handleVendorSelect`, from the vendor list; the console log is left out. */
    method HandleVendorSelect(v: Vendor)
      requires Valid() && Render(State()) == MainLayout(VendorListContent)
      modifies this
      ensures State() == Apply(old(State()), VendorSelect(v)) && Valid()
    {
      selectedVendor := Some(v);
    }

    /** `handleBookTicket`, from the page of the selected event. */
    method HandleBookTicket()
      requires Valid() && Render(State()) == MainLayout(EventDetailsContent)
      modifies this
      ensures State() == Apply(old(State()), BookTicket(old(selectedEvent).value)) && Valid()
    {
      var e := selectedEvent.value;
      selectedEvent := Some(e);
      currentView := BookingView;
    }

    /** `handleBookingComplete`, from the booking form. */
    method HandleBookingComplete(id: string)
      requires Valid() && Render(State()) == BookingScreen
      modifies this
      ensures State() == Apply(old(State()), BookingComplete(id)) && Valid()
    {
      bookingId := id;
      currentView := BookingSuccessView;
    }

    /** `handleEventCreated`, from the create form. */
    method HandleEventCreated()
      requires Valid() && Render(State()) == MainLayout(CreateEventContent)
      modifies this
      ensures State() == Apply(old(State()), EventCreated) && Valid()
    {
      currentView := DashboardView;
    }

    /** `handleAuthNavigation`, from the three auth forms. */
    method HandleAuthNavigation(page: AuthPage)
      requires Valid() && Render(State()) in {LoginScreen, RegisterScreen, ForgotPasswordScreen}
      modifies this
      ensures State() == Apply(old(State()), AuthNavigate(page)) && Valid()
    {
      authPage := page;
      currentView := page.View();
    }

    /** The remaining child callbacks, each a plain view change offered by one screen. */
    method HandleCallback(a: Action)
      requires Valid() && Offered(State(), a)
      requires a.BookingBack? || a.BookingSuccessBack? || a.DetailsBack? || a.CreateCancel? || a.DashboardCreateEvent? || a.ProfileBack? || a.Rsvp?
      modifies this
      ensures State() == Apply(old(State()), a) && Valid()
    {
      OfferedKeepsGate(State(), a);
      Set(Apply(State(), a));
    }
  }
}

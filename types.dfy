/**
 * The records of the application's shared type declarations, reduced to the
 * fields the modelled components read or write. String-literal unions become
 * enumerations; each keeps the literal it is compared with as `Name()`.
 * Decimal ratings are kept in integer tenths (4.8 is 48).
 */
module Types {
  import opened Wrappers

  datatype UserRole = Organizer | Attendee | VendorAccount {
    function Name(): string {
      match this
      case Organizer => "organizer"
      case Attendee => "user"
      case VendorAccount => "vendor"
    }
  }

  datatype User = User(
    id: string,
    name: string,
    email: string,
    phone: string,
    role: UserRole,
    city: string,
    dateOfBirth: Option<string>,
    bio: Option<string>,
    preferences: seq<string>,
    joinedDate: string)

  datatype EventType = Wedding | Birthday | Corporate | Religious | Cultural | OtherEvent {
    function Name(): string {
      match this
      case Wedding => "wedding"
      case Birthday => "birthday"
      case Corporate => "corporate"
      case Religious => "religious"
      case Cultural => "cultural"
      case OtherEvent => "other"
    }
  }

  datatype RsvpStatus = Going | Maybe | NotGoing {
    function Name(): string {
      match this
      case Going => "going"
      case Maybe => "maybe"
      case NotGoing => "not-going"
    }
  }

  datatype PaymentStatus = PaymentPending | PaymentCompleted | PaymentFailed {
    function Name(): string {
      match this
      case PaymentPending => "pending"
      case PaymentCompleted => "completed"
      case PaymentFailed => "failed"
    }
  }

  datatype CheckInStatus = CheckInPending | CheckedIn {
    function Name(): string {
      match this
      case CheckInPending => "pending"
      case CheckedIn => "checked-in"
    }
  }

  /** A user's RSVP to an event, with seats and payment and check-in state. */
  datatype EventParticipant = EventParticipant(
    id: string,
    userId: string,
    eventId: string,
    user: User,
    status: RsvpStatus,
    seats: nat,
    paymentStatus: Option<PaymentStatus>,
    checkInStatus: Option<CheckInStatus>,
    joinedAt: string)

  /**
   * An event. `price` absent means a free event; `gallery`, `availableSeats`
   * and `participants` are optional in the declarations and so optional here.
   */
  datatype Event = Event(
    id: string,
    title: string,
    description: string,
    eventType: EventType,
    date: string,
    time: string,
    venue: string,
    city: string,
    organizer: User,
    isPublic: bool,
    capacity: int,
    attendees: int,
    image: string,
    price: Option<int>,
    tags: seq<string>,
    gallery: Option<seq<string>>,
    availableSeats: Option<int>,
    participants: Option<seq<EventParticipant>>)

  datatype VendorCategory = Catering | Venue | Photography | Decoration | Dj | Transport | Planning | Security {
    function Name(): string {
      match this
      case Catering => "catering"
      case Venue => "venue"
      case Photography => "photography"
      case Decoration => "decoration"
      case Dj => "dj"
      case Transport => "transport"
      case Planning => "planning"
      case Security => "security"
    }
  }

  datatype PriceRange = Budget | MidRange | Premium {
    function Name(): string {
      match this
      case Budget => "budget"
      case MidRange => "mid-range"
      case Premium => "premium"
    }
  }

  /** A vendor; `rating10` is the rating in tenths of a star. */
  datatype Vendor = Vendor(
    id: string,
    name: string,
    category: VendorCategory,
    description: string,
    city: string,
    rating10: int,
    reviews: nat,
    priceRange: PriceRange,
    image: string,
    gallery: seq<string>,
    services: seq<string>)

  /** A review of a vendor; `rating10` is the rating in tenths of a star. */
  datatype VendorReview = VendorReview(
    id: string,
    vendorId: string,
    userId: string,
    rating10: int,
    comment: string,
    createdAt: string,
    isVerified: bool)

  datatype PaymentType = JazzCash | EasyPaisa | Wallet | Cash {
    function Name(): string {
      match this
      case JazzCash => "jazzcash"
      case EasyPaisa => "easypaisa"
      case Wallet => "wallet"
      case Cash => "cash"
    }
  }

  datatype PaymentMethod = PaymentMethod(
    id: string,
    name: string,
    methodType: PaymentType,
    description: string,
    isActive: bool)
}

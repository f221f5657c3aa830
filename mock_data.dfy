/**
 * The fixture records every component reads: one user, three events, three
 * vendors and the payment-method catalogue. Image URLs are shortened to the
 * photo file name; nothing in the model reads them.
 */
module MockData {
  import opened Wrappers
  import opened Types

  const MockUser: User := User(
    "1", "Ahmed Hassan", "ahmed@example.com", "+92-300-1234567", Organizer, "Karachi",
    Some("1990-05-15"),
    Some("Event organizer with 5+ years of experience in creating memorable celebrations."),
    ["weddings", "corporate", "cultural"],
    "2023-01-15")

  const WeddingEvent: Event := Event(
    "1", "Grand Wedding Celebration",
    "Join us for a magnificent wedding celebration with traditional Pakistani customs, delicious cuisine, and joyful festivities. Experience the rich cultural heritage of Pakistan with traditional music, dance performances, and authentic Pakistani dishes prepared by renowned chefs.",
    Wedding, "2025-02-15", "18:00", "Pearl Continental Hotel", "Karachi", MockUser, true,
    500, 234, "pexels-photo-1729808.jpeg", Some(5000),
    ["wedding", "traditional", "family"],
    Some(["pexels-photo-1729808.jpeg", "pexels-photo-3014856.jpeg", "pexels-photo-1616113.jpeg"]),
    Some(266), None)

  const SummitEvent: Event := Event(
    "2", "Tech Innovation Summit 2025",
    "Pakistan's premier technology conference bringing together innovators, entrepreneurs, and tech enthusiasts. Featuring keynote speakers from leading tech companies, startup pitches, and networking opportunities.",
    Corporate, "2025-01-28", "09:00", "Expo Centre", "Lahore", MockUser, true,
    1000, 567, "pexels-photo-2774556.jpeg", Some(2500),
    ["technology", "business", "networking"],
    Some(["pexels-photo-2774556.jpeg", "pexels-photo-1181396.jpeg"]),
    Some(433), None)

  const MehndiEvent: Event := Event(
    "3", "Mehndi Night Celebration",
    "A colorful and vibrant mehndi celebration with traditional music, dance, and henna designs. Join us for an evening filled with joy, laughter, and beautiful Pakistani traditions.",
    Cultural, "2025-02-20", "19:00", "Fortress Stadium", "Lahore", MockUser, false,
    300, 145, "pexels-photo-3014856.jpeg", None,
    ["mehndi", "traditional", "celebration"],
    Some(["pexels-photo-3014856.jpeg", "pexels-photo-1729808.jpeg"]),
    Some(155), None)

  const MockEvents: seq<Event> := [WeddingEvent, SummitEvent, MehndiEvent]

  const RoyalCaterers: Vendor := Vendor(
    "1", "Royal Caterers", Catering,
    "Premium catering services specializing in traditional Pakistani and continental cuisine for all types of events.",
    "Karachi", 48, 156, Premium, "pexels-photo-958545.jpeg",
    ["pexels-photo-958545.jpeg", "pexels-photo-1640777.jpeg"],
    ["Traditional Pakistani Cuisine", "Continental Food", "BBQ Specialists", "Live Cooking Stations"])

  const MajesticVenues: Vendor := Vendor(
    "2", "Majestic Venues", Venue,
    "Elegant wedding halls and event venues with modern amenities and traditional Pakistani architecture.",
    "Lahore", 46, 89, MidRange, "pexels-photo-1616113.jpeg",
    ["pexels-photo-1616113.jpeg", "pexels-photo-169193.jpeg"],
    ["Wedding Halls", "Conference Rooms", "Outdoor Gardens", "Parking Facilities"])

  const PixelPerfect: Vendor := Vendor(
    "3", "Pixel Perfect Photography", Photography,
    "Professional wedding and event photography capturing your special moments with artistic excellence.",
    "Islamabad", 49, 203, Premium, "pexels-photo-1187766.jpeg",
    ["pexels-photo-1187766.jpeg", "pexels-photo-1024993.jpeg"],
    ["Wedding Photography", "Event Coverage", "Pre-wedding Shoots", "Drone Photography"])

  const MockVendors: seq<Vendor> := [RoyalCaterers, MajesticVenues, PixelPerfect]

  const PaymentMethods: seq<PaymentMethod> := [
    PaymentMethod("1", "JazzCash", JazzCash, "Pay securely with your JazzCash mobile wallet", true),
    PaymentMethod("2", "EasyPaisa", EasyPaisa, "Quick payment through EasyPaisa mobile account", true),
    PaymentMethod("3", "Digital Wallet", Wallet, "Use your Eventistan wallet balance", true),
    PaymentMethod("4", "Cash Payment", Cash, "Pay cash at the venue or designated location", true)
  ]
}

/**
 * The organizer dashboard's three stat cards, reduced over the user's
 * events (the fixture list, which the dashboard never updates).
 */
module Dashboard {
  import opened Wrappers
  import opened Seqs
  import opened Types
  import MockData

  function Attendees(): Event -> int {
    (e: Event) => e.attendees
  }

  /** `event.price || 0`. */
  function TicketPrice(): Event -> int {
    (e: Event) => e.price.GetOr(0)
  }

  /** The three figures on the cards. */
  datatype Stats = Stats(totalEvents: nat, totalAttendees: int, revenue: int)

  /** "Total Events", "Total Attendees" (sum of attendees) and "Revenue" (sum of ticket prices). */
  function StatsOf(events: seq<Event>): Stats {
    Stats(|events|, SumOf(events, Attendees()), SumOf(events, TicketPrice()))
  }

  /** The figures of a list split in two are the sums of the figures of the parts. */
  lemma StatsAdd(xs: seq<Event>, ys: seq<Event>)
    ensures StatsOf(xs + ys).totalEvents == StatsOf(xs).totalEvents + StatsOf(ys).totalEvents
    ensures StatsOf(xs + ys).totalAttendees == StatsOf(xs).totalAttendees + StatsOf(ys).totalAttendees
    ensures StatsOf(xs + ys).revenue == StatsOf(xs).revenue + StatsOf(ys).revenue
  {
    SumOfAppend(xs, ys, Attendees());
    SumOfAppend(xs, ys, TicketPrice());
  }

  /**
   * "Revenue" adds one ticket price per event: it does not depend on the
   * number of attendees, and a free event adds nothing.
   */
  lemma RevenueIsPerEvent(xs: seq<Event>, e: Event, attendees: int)
    ensures StatsOf(xs + [e]).revenue == StatsOf(xs).revenue + e.price.GetOr(0)
    ensures StatsOf(xs + [e.(attendees := attendees)]).revenue == StatsOf(xs + [e]).revenue
    ensures e.price.None? ==> StatsOf(xs + [e]).revenue == StatsOf(xs).revenue
  {
    StatsAdd(xs, [e]);
    StatsAdd(xs, [e.(attendees := attendees)]);
  }

  /** With no negative counts or prices, no figure is negative. */
  lemma StatsNonNegative(events: seq<Event>)
    requires forall k :: 0 <= k < |events| ==> events[k].attendees >= 0
    requires forall k :: 0 <= k < |events| ==> events[k].price.GetOr(0) >= 0
    ensures StatsOf(events).totalAttendees >= 0 && StatsOf(events).revenue >= 0
  {
    SumOfNonNegative(events, Attendees());
    SumOfNonNegative(events, TicketPrice());
  }

  /** On the fixtures: 3 events, 946 attendees and Rs. 7,500. */
  lemma FixtureStats()
    ensures StatsOf(MockData.MockEvents) == Stats(3, 946, 7500)
  {
    var w, m := MockData.WeddingEvent, MockData.MehndiEvent;
    var ws, es := [w, MockData.SummitEvent], MockData.MockEvents;
    assert [w][..0] == [] && ws[..1] == [w] && es[..2] == ws;
    assert TicketPrice()(w) == 5000 && TicketPrice()(MockData.SummitEvent) == 2500 && TicketPrice()(m) == 0;
    assert SumOf([w], TicketPrice()) == SumOf([], TicketPrice()) + TicketPrice()(w);
    assert SumOf([w], Attendees()) == 234 && SumOf([w], TicketPrice()) == 5000;
    assert SumOf(ws, Attendees()) == 234 + 567 && SumOf(ws, TicketPrice()) == 5000 + 2500;
    assert SumOf(es, Attendees()) == 234 + 567 + 145 && SumOf(es, TicketPrice()) == 5000 + 2500 + 0;
  }
}

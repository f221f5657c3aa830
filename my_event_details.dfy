/**
 * The organizer's page for one of their events: the participant list
 * with a status filter and a search box, selection checkboxes, the
 * participant statistics, the CSV export and the revenue and check-in
 * figures.
 */
module MyEventDetails {
  import opened Wrappers
  import opened Seqs
  import opened Text
  import opened Types

  /** `event.participants || []`. */
  function Participants(e: Event): seq<EventParticipant> {
    e.participants.GetOr([])
  }

  /** `participantFilter`: 'all' or one RSVP status. */
  datatype StatusFilter = AllStatuses | OnlyStatus(status: RsvpStatus)

  /** The status filter matches, and the search occurs in the name or the email, ignoring case. */
  predicate MatchesParticipant(p: EventParticipant, filter: StatusFilter, search: string) {
    && (filter.AllStatuses? || p.status == filter.status)
    && (MatchesIgnoringCase(p.user.name, search) || MatchesIgnoringCase(p.user.email, search))
  }

  function ParticipantMatcher(filter: StatusFilter, search: string): EventParticipant -> bool {
    p => MatchesParticipant(p, filter, search)
  }

  /** `filteredParticipants`. */
  function FilteredParticipants(ps: seq<EventParticipant>, filter: StatusFilter, search: string): seq<EventParticipant> {
    Filter(ps, ParticipantMatcher(filter, search))
  }

  /** The filtered list keeps the participants' order and holds exactly the matching ones. */
  lemma FilteredParticipantsRule(ps: seq<EventParticipant>, filter: StatusFilter, search: string, p: EventParticipant)
    ensures IsSubsequence(FilteredParticipants(ps, filter, search), ps)
    ensures p in FilteredParticipants(ps, filter, search) <==> p in ps && MatchesParticipant(p, filter, search)
  {
    FilterIsSubsequence(ps, ParticipantMatcher(filter, search));
    FilterMembership(ps, ParticipantMatcher(filter, search), p);
  }

  /** With 'all' and an empty search box every participant is listed. */
  lemma NoFilterListsEveryone(ps: seq<EventParticipant>)
    ensures FilteredParticipants(ps, AllStatuses, "") == ps
  {
    forall k | 0 <= k < |ps| ensures MatchesParticipant(ps[k], AllStatuses, "") {
      EmptyContained(Lower(ps[k].user.name));
    }
    FilterKeepsAll(ps, ParticipantMatcher(AllStatuses, ""));
  }

  function StatusIs(s: RsvpStatus): EventParticipant -> bool {
    (p: EventParticipant) => p.status == s
  }

  function IsCheckedIn(): EventParticipant -> bool {
    (p: EventParticipant) => p.checkInStatus == Some(CheckedIn)
  }

  function HasPaid(): EventParticipant -> bool {
    (p: EventParticipant) => p.paymentStatus == Some(PaymentCompleted)
  }

  /** `participantStats`. */
  datatype ParticipantStats = ParticipantStats(total: nat, going: nat, maybe: nat, notGoing: nat, checkedIn: nat, paid: nat)

  function Stats(ps: seq<EventParticipant>): ParticipantStats {
    ParticipantStats(|ps|, Count(ps, StatusIs(Going)), Count(ps, StatusIs(Maybe)), Count(ps, StatusIs(NotGoing)),
      Count(ps, IsCheckedIn()), Count(ps, HasPaid()))
  }

  /** Every participant has exactly one of the three statuses, so the three counts add up to the total. */
  lemma {:induction false} StatusCountsAddUp(ps: seq<EventParticipant>)
    ensures Count(ps, StatusIs(Going)) + Count(ps, StatusIs(Maybe)) + Count(ps, StatusIs(NotGoing)) == |ps|
    decreases |ps|
  {
    if ps != [] {
      StatusCountsAddUp(ps[1..]);
      assert Filter(ps, StatusIs(Going)) == (if ps[0].status == Going then [ps[0]] else []) + Filter(ps[1..], StatusIs(Going));
      assert Filter(ps, StatusIs(Maybe)) == (if ps[0].status == Maybe then [ps[0]] else []) + Filter(ps[1..], StatusIs(Maybe));
      assert Filter(ps, StatusIs(NotGoing)) == (if ps[0].status == NotGoing then [ps[0]] else []) + Filter(ps[1..], StatusIs(NotGoing));
    }
  }

  /** The figures on the page are consistent: the statuses partition the list, and no count exceeds it. */
  lemma StatsConsistent(ps: seq<EventParticipant>)
    ensures Stats(ps).going + Stats(ps).maybe + Stats(ps).notGoing == Stats(ps).total
    ensures Stats(ps).checkedIn <= Stats(ps).total && Stats(ps).paid <= Stats(ps).total
  {
    StatusCountsAddUp(ps);
  }

  /** The revenue card: the ticket price (0 when absent) times the paid tickets. */
  function Revenue(e: Event): int {
    e.price.GetOr(0) * Stats(Participants(e)).paid
  }

  /** A free event earns nothing; a paid one earns at most the price of a ticket for everyone. */
  lemma RevenueBounds(e: Event)
    ensures e.price.None? ==> Revenue(e) == 0
    ensures e.price.Some? && e.price.value >= 0 ==> 0 <= Revenue(e) <= e.price.value * |Participants(e)|
  {
    var paid := Stats(Participants(e)).paid;
    if e.price.Some? && e.price.value >= 0 {
      assert paid <= |Participants(e)|;
      assert e.price.value * paid <= e.price.value * |Participants(e)| by {
        MultiplyMonotone(e.price.value, paid, |Participants(e)|);
      }
    }
  }

  lemma MultiplyMonotone(a: int, m: int, n: int)
    requires a >= 0 && 0 <= m <= n
    ensures 0 <= a * m <= a * n
  {
  }

  /**
   * The check-in rate in percent: the checked-in count over the going count,
   * rounded half up as `Math.round` does on these non-negative numbers, and
   * 0 when nobody is going.
   */
  function CheckInRate(checkedIn: nat, going: nat): nat {
    if going > 0 then (200 * checkedIn + going) / (2 * going) else 0
  }

  /** No division by zero: 0 with nobody going; 100 when all going have checked in; at most 100 when no more checked in than go. */
  lemma CheckInRateBounds(checkedIn: nat, going: nat)
    ensures going == 0 ==> CheckInRate(checkedIn, going) == 0
    ensures going > 0 && checkedIn == going ==> CheckInRate(checkedIn, going) == 100
    ensures checkedIn <= going ==> CheckInRate(checkedIn, going) <= 100
  {
    if going > 0 {
      var n, d := 200 * checkedIn + going, 2 * going;
      if checkedIn == going {
        DivideExactly(n, d, 100);
      }
      if checkedIn <= going {
        DivideBelow(n, d, 101);
      }
    }
  }

  /** Products with a common positive factor compare as the other factors do. */
  lemma LessFromProduct(q: int, b: int, d: int)
    requires d > 0 && q * d < b * d
    ensures q < b
  {
  }

  /** A number between `q * d` and `q * d + d` has quotient `q`. */
  lemma DivideExactly(x: int, d: int, q: int)
    requires d > 0 && q * d <= x < q * d + d
    ensures x / d == q
  {
    var a := x / d;
    assert a * d <= x < a * d + d;
    LessFromProduct(q, a + 1, d);
    LessFromProduct(a, q + 1, d);
  }

  lemma DivideBelow(n: int, d: int, b: int)
    requires d > 0 && n < b * d
    ensures n / d < b
  {
    var q := n / d;
    assert q * d <= n;
    LessFromProduct(q, b, d);
  }

  /** `handleSelectParticipant`: flip the membership of one id. */
  function SelectParticipant(selected: seq<string>, id: string): seq<string> {
    Toggle(selected, id)
  }

  /** Selecting flips the clicked id only. */
  lemma SelectParticipantRule(selected: seq<string>, id: string, other: string)
    ensures id in SelectParticipant(selected, id) <==> id !in selected
    ensures other != id ==> (other in SelectParticipant(selected, id) <==> other in selected)
  {
    ToggleFlips(selected, id);
    if other != id {
      ToggleKeepsOthers(selected, id, other);
    }
  }

  /** `filteredParticipants.map(p => p.id)`. */
  function Ids(ps: seq<EventParticipant>): (r: seq<string>)
    ensures |r| == |ps| && forall k :: 0 <= k < |ps| ==> r[k] == ps[k].id
  {
    seq(|ps|, k requires 0 <= k < |ps| => ps[k].id)
  }

  /** `handleSelectAll`: clear when as many ids are selected as are listed, else select the listed ids. */
  function SelectAll(selected: seq<string>, filtered: seq<EventParticipant>): seq<string> {
    if |selected| == |filtered| then [] else Ids(filtered)
  }

  lemma SelectAllRule(selected: seq<string>, filtered: seq<EventParticipant>)
    ensures |selected| == |filtered| ==> SelectAll(selected, filtered) == []
    ensures |selected| != |filtered| ==> SelectAll(selected, filtered) == Ids(filtered)
  {
  }

  /**
   * The test compares counts, not contents: an id selected before the list
   * was narrowed makes "select all" clear the selection although the one
   * listed participant was never selected.
   */
  lemma SelectAllComparesCounts(p: EventParticipant, stale: string)
    requires p.id != stale
    ensures p.id !in [stale]
    ensures SelectAll([stale], [p]) == []
  {
  }

  /** The column titles of the export. */
  const Header: seq<string> := ["Name", "Email", "Phone", "Status", "Seats", "Payment Status", "Check-in Status", "Joined Date"]

  /** An optional status, or 'N/A' when absent. */
  function PaymentCell(s: Option<PaymentStatus>): string {
    if s.Some? then s.value.Name() else "N/A"
  }

  function CheckInCell(s: Option<CheckInStatus>): string {
    if s.Some? then s.value.Name() else "N/A"
  }

  /** The fields of one participant's row; `formatDate` stands for the locale date formatting. */
  function Row(p: EventParticipant, formatDate: string -> string): (r: seq<string>)
    ensures |r| == |Header|
    ensures r[5] == "N/A" <==> p.paymentStatus.None?
    ensures r[6] == "N/A" <==> p.checkInStatus.None?
  {
    [p.user.name, p.user.email, p.user.phone, p.status.Name(), NatToString(p.seats),
     PaymentCell(p.paymentStatus), CheckInCell(p.checkInStatus), formatDate(p.joinedAt)]
  }

  /** One comma-joined line per filtered participant, in order. */
  function RowLines(ps: seq<EventParticipant>, formatDate: string -> string): (r: seq<string>)
    ensures |r| == |ps|
    ensures forall k :: 0 <= k < |ps| ==> r[k] == Join(Row(ps[k], formatDate), ',')
    decreases |ps|
  {
    if ps == [] then [] else [Join(Row(ps[0], formatDate), ',')] + RowLines(ps[1..], formatDate)
  }

  /** `csvContent`: the header line, then the participants' lines, joined by newlines. */
  function Csv(ps: seq<EventParticipant>, formatDate: string -> string): string {
    Join([Join(Header, ',')] + RowLines(ps, formatDate), '\n')
  }

  lemma {:induction false} CountCharAbsent(s: string, c: char)
    requires c !in s
    ensures CountChar(s, c) == 0
    decreases |s|
  {
    if s != [] {
      assert s[0] != c;
      assert forall k :: 0 <= k < |s[1..]| ==> s[1..][k] == s[k + 1];
      CountCharAbsent(s[1..], c);
    }
  }

  lemma {:induction false} RowLinesHaveNoNewlines(ps: seq<EventParticipant>, formatDate: string -> string)
    requires forall k :: 0 <= k < |ps| ==> CountCharAll(Row(ps[k], formatDate), '\n') == 0
    ensures CountCharAll(RowLines(ps, formatDate), '\n') == 0
    decreases |ps|
  {
    if ps != [] {
      var lines := RowLines(ps, formatDate);
      JoinCount(Row(ps[0], formatDate), ',', '\n');
      assert lines[1..] == RowLines(ps[1..], formatDate);
      RowLinesHaveNoNewlines(ps[1..], formatDate);
    }
  }

  /**
   * When no field holds a line break, the export has exactly one line
   * per filtered participant after the header line: as many newlines as
   * participants.
   */
  lemma CsvLineCount(ps: seq<EventParticipant>, formatDate: string -> string)
    requires forall k :: 0 <= k < |ps| ==> CountCharAll(Row(ps[k], formatDate), '\n') == 0
    ensures CountChar(Csv(ps, formatDate), '\n') == |ps|
  {
    var lines := [Join(Header, ',')] + RowLines(ps, formatDate);
    JoinCount(lines, '\n', '\n');
    assert lines[1..] == RowLines(ps, formatDate);
    RowLinesHaveNoNewlines(ps, formatDate);
    JoinCount(Header, ',', '\n');
    HeaderHasNoNewlines();
  }

  lemma {:induction false} CountCharAllAbsent(xs: seq<string>, c: char)
    requires forall k :: 0 <= k < |xs| ==> c !in xs[k]
    ensures CountCharAll(xs, c) == 0
    decreases |xs|
  {
    if xs != [] {
      CountCharAbsent(xs[0], c);
      CountCharAllAbsent(xs[1..], c);
    }
  }

  lemma HeaderHasNoNewlines()
    ensures CountCharAll(Header, '\n') == 0
  {
    assert '\n' !in Header[0] && '\n' !in Header[1] && '\n' !in Header[2] && '\n' !in Header[3];
    assert '\n' !in Header[4] && '\n' !in Header[5] && '\n' !in Header[6] && '\n' !in Header[7];
    CountCharAllAbsent(Header, '\n');
  }

  /** When no field holds a comma, every line of the export has seven commas: eight fields. */
  lemma RowHasEightFields(p: EventParticipant, formatDate: string -> string)
    requires CountCharAll(Row(p, formatDate), ',') == 0
    ensures CountChar(Join(Row(p, formatDate), ','), ',') == |Header| - 1
  {
    JoinCount(Row(p, formatDate), ',', ',');
  }

  /** The page's state for one event. */
  class MyEventDetailsView {
    const event: Event
    var participantFilter: StatusFilter
    var searchParticipants: string
    var selectedParticipants: seq<string>

    constructor (e: Event)
      ensures event == e && participantFilter == AllStatuses
      ensures searchParticipants == "" && selectedParticipants == []
    {
      event := e;
      participantFilter := AllStatuses;
      searchParticipants := "";
      selectedParticipants := [];
    }

    /** The participants currently listed. */
    function Listed(): seq<EventParticipant>
      reads this
    {
      FilteredParticipants(Participants(event), participantFilter, searchParticipants)
    }

    method SetParticipantFilter(filter: StatusFilter)
      modifies this
      ensures participantFilter == filter
      ensures searchParticipants == old(searchParticipants) && selectedParticipants == old(selectedParticipants)
    {
      participantFilter := filter;
    }

    method SetSearch(search: string)
      modifies this
      ensures searchParticipants == search
      ensures participantFilter == old(participantFilter) && selectedParticipants == old(selectedParticipants)
    {
      searchParticipants := search;
    }

    /** `handleSelectParticipant`. */
    method HandleSelectParticipant(id: string)
      modifies this
      ensures selectedParticipants == SelectParticipant(old(selectedParticipants), id)
      ensures participantFilter == old(participantFilter) && searchParticipants == old(searchParticipants)
    {
      selectedParticipants := SelectParticipant(selectedParticipants, id);
    }

    /** `handleSelectAll`. */
    method HandleSelectAll()
      modifies this
      ensures selectedParticipants == SelectAll(old(selectedParticipants), old(Listed()))
      ensures participantFilter == old(participantFilter) && searchParticipants == old(searchParticipants)
    {
      selectedParticipants := SelectAll(selectedParticipants, Listed());
    }

    /** The text `exportParticipants` puts in the downloaded file. */
    method ExportParticipants(formatDate: string -> string) returns (csv: string)
      ensures csv == Csv(Listed(), formatDate)
    {
      csv := Csv(Listed(), formatDate);
    }
  }
}

/** The Events page's status filter: the token "all" shows every event, any
    other token shows the events whose status is written exactly as the token. */
module Events {
  import opened ListFilter
  import opened EventCard

  datatype Event = Event(id: int, title: string, society: string, date: string, venue: string,
                         capacity: int, registered: int, status: EventStatus)

  /** The token that selects every event; also the filter's initial value. */
  const ALL: string := "all"
  const INITIAL_FILTER: string := ALL

  /** The tokens the page offers as buttons, in display order. */
  const FILTER_TOKENS: seq<string> := ["all", "upcoming", "live", "ended"]

  /** The events shown for the current `filter` token, in their original order. */
  function Visible(events: seq<Event>, filter: string): (r: seq<Event>)
    ensures IsSubsequence(r, events)
    ensures filter == ALL ==> r == events
    ensures filter != ALL ==> forall e :: e in r <==> e in events && StatusName(e.status) == filter
  {
    if filter == ALL then
      IsSubsequenceReflexive(events);
      events
    else
      Filter(events, (e: Event) => StatusName(e.status) == filter)
  }

  /** For a status token, every matching event is shown as often as it occurs
      in the list, and no other event is shown. */
  lemma VisibleMultiplicity(events: seq<Event>, filter: string, e: Event)
    requires filter != ALL
    ensures multiset(Visible(events, filter))[e] ==
            if StatusName(e.status) == filter then multiset(events)[e] else 0
  {
    FilterMultiplicity(events, (e: Event) => StatusName(e.status) == filter, e);
  }

  /** Matching is exact: a token that is not "all" and is not written exactly
      like a status (for example "Live") shows nothing. */
  lemma UnknownTokenShowsNothing(events: seq<Event>, filter: string)
    requires filter != ALL
    requires forall s: EventStatus :: StatusName(s) != filter
    ensures Visible(events, filter) == []
  {
  }

  /** The capitalised button text is not a status token. */
  lemma CaseSensitiveExample(events: seq<Event>)
    ensures Visible(events, "Live") == []
  {
    UnknownTokenShowsNothing(events, "Live");
  }

  /** Two different status tokens never show the same event. */
  lemma DistinctTokensDisjoint(events: seq<Event>, t1: string, t2: string)
    requires t1 != ALL && t2 != ALL && t1 != t2
    ensures forall e :: e in Visible(events, t1) ==> e !in Visible(events, t2)
  {
  }

  /** The offered tokens are "all" and three status names; "cancelled" is not
      among them, so cancelled events are only ever shown under "all". */
  lemma OfferedTokens(events: seq<Event>, t: string, e: Event)
    requires t in FILTER_TOKENS
    requires e.status == Cancelled && e in Visible(events, t)
    ensures t == ALL
  {
  }

  /** Every offered token other than "all" is the name of some status. */
  lemma OfferedTokensAreStatuses(t: string)
    requires t in FILTER_TOKENS && t != ALL
    ensures exists s: EventStatus :: s != Cancelled && StatusName(s) == t
  {
    if t == "upcoming" {
      assert StatusName(Upcoming) == t;
    } else if t == "live" {
      assert StatusName(Live) == t;
    } else {
      assert StatusName(Ended) == t;
    }
  }

  /** The "No events in this category." line appears when nothing is shown:
      exactly when the list is empty (under "all") or no event has the selected status. */
  predicate ShowsNoEventsMessage(events: seq<Event>, filter: string): (shown: bool)
    ensures shown <==> if filter == ALL then events == []
                       else forall e :: e in events ==> StatusName(e.status) != filter
  {
    var r := Visible(events, filter);
    assert r != [] ==> r[0] in r;
    |r| == 0
  }
}

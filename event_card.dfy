/** The logic of one event card: the capacity bar's fill percentage and colour,
    and the status badge's label and pulse. Percentages are exact reals rather
    than IEEE doubles. */
module EventCard {

  datatype EventStatus = Upcoming | Live | Ended | Cancelled

  /** The string literal each status is written as in the event data. */
  function StatusName(s: EventStatus): (name: string)
    ensures name in {"upcoming", "live", "ended", "cancelled"}
  {
    match s
    case Upcoming => "upcoming"
    case Live => "live"
    case Ended => "ended"
    case Cancelled => "cancelled"
  }

  /** Different statuses are written differently, so a status is recoverable from its name. */
  lemma StatusNameInjective(s: EventStatus, t: EventStatus)
    requires StatusName(s) == StatusName(t)
    ensures s == t
  {
  }

  /** Upper-cases an ASCII letter and leaves every other character alone. */
  function UpperChar(c: char): (u: char)
    ensures !('a' <= u <= 'z')
    ensures 'a' <= c <= 'z' ==> u as int == c as int - 32
    ensures !('a' <= c <= 'z') ==> u == c
  {
    if 'a' <= c <= 'z' then (c as int - 32) as char else c
  }

  /** The word with its first letter upper-cased, as CSS `capitalize` shows a token. */
  function Capitalize(w: string): (r: string)
    ensures |r| == |w|
    ensures w != [] ==> r[0] == UpperChar(w[0]) && r[1..] == w[1..]
  {
    if w == [] then [] else [UpperChar(w[0])] + w[1..]
  }

  /** One entry of the status table: the badge text and whether it pulses. */
  datatype StatusBadge = StatusBadge(text: string, pulse: bool)

  /** The status table, defined for every status. */
  function StatusConfig(s: EventStatus): (b: StatusBadge)
    ensures b.pulse <==> s == Live
    ensures b.text == Capitalize(StatusName(s))
  {
    match s
    case Upcoming => StatusBadge("Upcoming", false)
    case Live => StatusBadge("Live", true)
    case Ended => StatusBadge("Ended", false)
    case Cancelled => StatusBadge("Cancelled", false)
  }

  /** No two statuses share a badge label. */
  lemma StatusLabelsDistinct(s: EventStatus, t: EventStatus)
    requires StatusConfig(s).text == StatusConfig(t).text
    ensures s == t
  {
  }

  function Min(a: real, b: real): real
  {
    if a <= b then a else b
  }

  /** How full the event is, in percent: no fill without a positive capacity,
      clamped from above at 100 and, as written, not clamped from below. */
  function Percent(capacity: int, registered: int): (p: real)
    ensures capacity <= 0 ==> p == 0.0
    ensures p <= 100.0
    ensures 0 < capacity <= registered ==> p == 100.0
    ensures 0 < capacity && registered <= capacity ==> p * capacity as real == registered as real * 100.0
    ensures 0 < capacity && 0 <= registered ==> 0.0 <= p
    ensures 0 < capacity && registered < 0 ==> p < 0.0
  {
    if capacity > 0 then
      var ratio := registered as real / capacity as real;
      assert ratio * capacity as real == registered as real;
      assert capacity <= registered ==> ratio >= 1.0;
      assert registered <= capacity ==> ratio <= 1.0;
      Min(ratio * 100.0, 100.0)
    else 0.0
  }

  /** The three fill colours of the capacity bar. */
  datatype BarColour = Cyan | Amber | Red

  /** Red from 90 percent, amber from 70 percent, cyan below that. */
  function FillColour(p: real): (c: BarColour)
    ensures c == Red <==> 90.0 <= p
    ensures c == Amber <==> 70.0 <= p < 90.0
    ensures c == Cyan <==> p < 70.0
  {
    if p >= 90.0 then Red else if p >= 70.0 then Amber else Cyan
  }

  /** Rank of a colour, from the calmest to the most urgent. */
  function Severity(c: BarColour): nat
  {
    match c
    case Cyan => 0
    case Amber => 1
    case Red => 2
  }

  /** A fuller bar is never shown in a calmer colour. */
  lemma FillColourMonotone(p: real, q: real)
    requires p <= q
    ensures Severity(FillColour(p)) <= Severity(FillColour(q))
  {
  }

  /** A booked-out event shows a red bar; an event without capacity a cyan one. */
  lemma CapacityExtremes(capacity: int, registered: int)
    ensures 0 < capacity <= registered ==> FillColour(Percent(capacity, registered)) == Red
    ensures capacity <= 0 ==> FillColour(Percent(capacity, registered)) == Cyan
  {
  }
}

/** The deadline badge (src/components/SLATimer.jsx): whether a deadline has
    passed, whether it is close, and which colour band it shows. Times are
    milliseconds; the human-readable distance is the parameter `distance`. */
module SlaTimer {

  const Hour: int := 60 * 60 * 1000
  const UrgentWindow: int := 2 * Hour
  const WarningWindow: int := 4 * Hour

  /** The deadline lies strictly before now. */
  predicate IsOverdue(deadline: int, now: int) {
    deadline < now
  }

  /** Some time is left, and at most two hours of it. */
  predicate IsUrgent(deadline: int, now: int) {
    0 < deadline - now <= UrgentWindow
  }

  datatype Band = Red | Yellow | Orange | Green

  /** The band's urgency: red is the most urgent. */
  function Rank(b: Band): nat {
    match b
    case Red => 3
    case Yellow => 2
    case Orange => 1
    case Green => 0
  }

  /** Overdue is red; else urgent is yellow; else four hours or less left is
      orange; else green. */
  function BandOf(deadline: int, now: int): (b: Band)
    ensures b == Red <==> IsOverdue(deadline, now)
    ensures b == Yellow <==> IsUrgent(deadline, now)
    ensures b == Orange <==> 0 <= deadline - now <= WarningWindow && !IsUrgent(deadline, now)
    ensures b == Green <==> deadline - now > WarningWindow
  {
    if IsOverdue(deadline, now) then Red
    else if IsUrgent(deadline, now) then Yellow
    else if deadline - now <= WarningWindow then Orange
    else Green
  }

  /** Overdue and urgent never hold together. */
  lemma OverdueExcludesUrgent(deadline: int, now: int)
    ensures !(IsOverdue(deadline, now) && IsUrgent(deadline, now))
  {
  }

  /** A deadline that is exactly now is neither overdue nor urgent; it shows
      orange. */
  lemma DeadlineNowIsOrange(now: int)
    ensures !IsOverdue(now, now) && !IsUrgent(now, now)
    ensures BandOf(now, now) == Orange
  {
  }

  /** Away from the instant of the deadline itself, the band only grows more
      urgent as the deadline draws nearer. */
  lemma BandMonotoneAwayFromDeadline(d1: int, d2: int, now: int)
    requires d1 <= d2 && d1 != now
    ensures Rank(BandOf(d1, now)) >= Rank(BandOf(d2, now))
  {
  }

  /** At the instant of the deadline the band drops back: a deadline that is
      exactly now shows orange, one a millisecond later shows yellow. */
  lemma BandDropsAtDeadline(now: int)
    ensures BandOf(now, now) == Orange && BandOf(now + 1, now) == Yellow
    ensures Rank(BandOf(now, now)) < Rank(BandOf(now + 1, now))
  {
  }

  /** The banding with the instant of the deadline counted as urgent. */
  function IntendedBandOf(deadline: int, now: int): (b: Band)
    ensures b == Red <==> IsOverdue(deadline, now)
    ensures b == Yellow <==> 0 <= deadline - now <= UrgentWindow
    ensures b == Orange <==> UrgentWindow < deadline - now <= WarningWindow
    ensures b == Green <==> deadline - now > WarningWindow
    ensures deadline != now ==> b == BandOf(deadline, now)
  {
    if IsOverdue(deadline, now) then Red
    else if deadline - now <= UrgentWindow then Yellow
    else if deadline - now <= WarningWindow then Orange
    else Green
  }

  /** With that banding, urgency never decreases as the deadline nears ... */
  lemma IntendedBandMonotone(d1: int, d2: int, now: int)
    requires d1 <= d2
    ensures Rank(IntendedBandOf(d1, now)) >= Rank(IntendedBandOf(d2, now))
  {
  }

  /** ... nor as time passes with the deadline fixed. */
  lemma IntendedBandMonotoneInTime(deadline: int, t1: int, t2: int)
    requires t1 <= t2
    ensures Rank(IntendedBandOf(deadline, t1)) <= Rank(IntendedBandOf(deadline, t2))
  {
    IntendedBandMonotone(deadline - (t2 - t1), deadline, t1);
    assert IntendedBandOf(deadline - (t2 - t1), t1) == IntendedBandOf(deadline, t2);
  }

  /** The badge text: "Overdue by …" once the deadline has passed, else
      "… remaining". */
  function BadgeText(deadline: int, now: int, distance: (int, int) -> string): (r: string)
    ensures IsOverdue(deadline, now) ==> r == "Overdue by " + distance(now, deadline)
    ensures !IsOverdue(deadline, now) ==> r == distance(deadline, now) + " remaining"
  {
    if IsOverdue(deadline, now) then "Overdue by " + distance(now, deadline)
    else distance(deadline, now) + " remaining"
  }
}

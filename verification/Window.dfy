/** The authorisation window a provider grants a forwarded mint, and how it caps the
    touch-free window one signature opens. */
module Window {
  import opened Basics

  datatype Grant = Grant(seconds: int, deadline: Option<Instant>)

  datatype WindowError = WindowNotAllowed(requested: int)

  const NO_GRANT := Grant(0, None)

  /** A claim anchored its window at the deadline it sent minus the seconds it asked for;
      a shorter grant ends earlier from that same start. A window already over is no window. */
  function GrantedWindow(maxGrantS: int, windowSeconds: int, windowDeadline: int, now: Instant): Result<Grant, WindowError> {
    if windowSeconds <= 0 then Ok(NO_GRANT)
    else if maxGrantS <= 0 then Err(WindowNotAllowed(windowSeconds))
    else
      var granted := Min(windowSeconds, maxGrantS);
      var deadline := FromUnix(windowDeadline - windowSeconds) + Seconds(granted);
      if deadline <= now then Ok(NO_GRANT) else Ok(Grant(granted, Some(deadline)))
  }

  /** Whichever ends sooner of the alias window and the grant, never before completion. */
  function TouchFreeUntil(completedAt: Instant, aliasReuse: Duration, deadline: Option<Instant>): Instant {
    var endsAt := completedAt + aliasReuse;
    match deadline
    case None => endsAt
    case Some(d) =>
      if d >= endsAt then endsAt
      else if d < completedAt then completedAt
      else d
  }

  /** Exactly what is granted. A request for a window is refused where the provider allows
      none. A window starts where the claim started, that many seconds before the deadline
      it sent, and lasts as long as the shorter of what was asked and what the provider
      allows; it is granted while that end is ahead, and otherwise there is no window. */
  lemma GrantIsExact(maxGrantS: int, windowSeconds: int, windowDeadline: int, now: Instant)
    ensures var g := GrantedWindow(maxGrantS, windowSeconds, windowDeadline, now);
            var (claimStart, length) := ((windowDeadline - windowSeconds) * 1_000_000_000, Min(windowSeconds, maxGrantS));
            && (g.Err? <==> windowSeconds > 0 && maxGrantS <= 0)
            && (g.Err? ==> g.error.requested == windowSeconds)
            && (g.Ok? ==>
                  && (g.value.deadline.Some? <==> windowSeconds > 0 && now < claimStart + length * 1_000_000_000)
                  && (g.value.deadline.Some? ==> g.value == Grant(length, Some(claimStart + length * 1_000_000_000)))
                  && (g.value.deadline.None? ==> g.value.seconds == 0))
            && (g.Ok? && g.value.deadline.Some? ==>
                  && g.value.deadline.value <= claimStart + maxGrantS * 1_000_000_000
                  && g.value.deadline.value <= windowDeadline * 1_000_000_000)
  {
  }

  /** Re-asking: a later request under the same claim is granted the identical deadline or
      nothing, and never regains a grant it has lost; a grant is live when given, no longer
      than either party allows, and never outlasts the deadline the claim itself sent. */
  lemma ReaskingNeverLengthens(maxGrantS: int, windowSeconds: int, windowDeadline: int, first: Instant, later: Instant)
    requires first <= later
    ensures var g1 := GrantedWindow(maxGrantS, windowSeconds, windowDeadline, first);
            var g2 := GrantedWindow(maxGrantS, windowSeconds, windowDeadline, later);
            && g1.Ok? == g2.Ok?
            && (g2.Ok? && g2.value.deadline.Some? ==>
                  && g1 == g2
                  && later < g2.value.deadline.value <= FromUnix(windowDeadline)
                  && 0 < g2.value.seconds <= Min(windowSeconds, maxGrantS))
            && (g1.Ok? && g1.value.deadline.None? ==> g2 == Ok(NO_GRANT))
  {
  }

  /** How long one signature answers without another touch: the whole alias window, and under
      a grant only while that lasts too. So a grant can shorten the window and never open
      one, and one that ended during the touch leaves none. */
  lemma GrantOnlyShortens(completedAt: Instant, aliasReuse: Duration, deadline: Option<Instant>, now: Instant)
    requires aliasReuse >= 0
    ensures var ends := TouchFreeUntil(completedAt, aliasReuse, deadline);
            && completedAt <= ends <= completedAt + aliasReuse
            && (deadline.None? ==> ends == completedAt + aliasReuse)
            && (completedAt <= now ==>
                  (now < ends <==> now < completedAt + aliasReuse && (deadline.Some? ==> now < deadline.value)))
  {
  }
}

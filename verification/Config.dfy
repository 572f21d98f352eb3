/** The per-alias bounds of the configuration schema and the two readings of an
    alias the mint path takes from it. */
module Config {
  import opened Basics

  const DEFAULT_LIFETIME_S := 300
  const MAX_LIFETIME_S := 3600
  const CLOCK_SKEW_S := 30
  const MIN_REMAINING_VALIDITY_S := 60
  const MIN_ACCESS_LIFETIME_S := 600
  const MAX_ACCESS_LIFETIME_S := 3600

  datatype Alias = Alias(target: string, lifetimeS: int, assertionReuseS: int, assertionLifetimeS: int)

  function AssertionLifetimeS(a: Alias): int {
    if a.assertionLifetimeS <= 0 then DEFAULT_LIFETIME_S else a.assertionLifetimeS
  }

  /** An access-token lifetime that is itself out of range must not distort this bound. */
  function MaxAssertionLifetimeS(a: Alias): int {
    if MIN_ACCESS_LIFETIME_S <= a.lifetimeS < MAX_LIFETIME_S then a.lifetimeS else MAX_LIFETIME_S
  }

  function MaxAssertionReuseS(a: Alias): int {
    AssertionLifetimeS(a) - CLOCK_SKEW_S - MIN_REMAINING_VALIDITY_S
  }

  datatype AliasError = LifetimeOutOfRange | AssertionLifetimeOutOfRange(maximum: int) | ReuseOutOfRange(maximum: int)

  /** The three numeric checks of one alias, reported in the order they are made. */
  function AliasErrors(a: Alias): seq<AliasError> {
    (if a.lifetimeS < MIN_ACCESS_LIFETIME_S || a.lifetimeS > MAX_ACCESS_LIFETIME_S
     then [LifetimeOutOfRange] else [])
    + (if AssertionLifetimeS(a) < DEFAULT_LIFETIME_S || AssertionLifetimeS(a) > MaxAssertionLifetimeS(a)
       then [AssertionLifetimeOutOfRange(MaxAssertionLifetimeS(a))] else [])
    + (if a.assertionReuseS < 0 || a.assertionReuseS > MaxAssertionReuseS(a)
       then [ReuseOutOfRange(MaxAssertionReuseS(a))] else [])
  }

  predicate ValidAlias(a: Alias) {
    AliasErrors(a) == []
  }

  function Lifetime(a: Alias): Duration {
    Seconds(AssertionLifetimeS(a))
  }

  function Reuse(a: Alias): Duration {
    Seconds(a.assertionReuseS)
  }

  /** An accepted alias never lets one assertion outlive the access token it buys, and a
      reuse window always ends inside the assertion it serves with the backdated 30 s and
      the minimum validity of 60 s still to spare. A lifetime left out is 300 s. */
  lemma AcceptedAliasBounds(a: Alias)
    ensures ValidAlias(a) <==>
              && 600 <= a.lifetimeS <= 3600
              && 300 <= AssertionLifetimeS(a) <= a.lifetimeS
              && 0 <= a.assertionReuseS && 30 + a.assertionReuseS + 60 <= AssertionLifetimeS(a)
    ensures AssertionLifetimeS(a) == if a.assertionLifetimeS > 0 then a.assertionLifetimeS else 300
    ensures Lifetime(a) == AssertionLifetimeS(a) * 1_000_000_000 && Reuse(a) == a.assertionReuseS * 1_000_000_000
  {
    assert (if a.lifetimeS < MIN_ACCESS_LIFETIME_S || a.lifetimeS > MAX_ACCESS_LIFETIME_S
            then [LifetimeOutOfRange] else []) <= AliasErrors(a);
  }

  /** Which faults are reported, with which limit: an access lifetime outside 600 s to 3600 s;
      an assertion lifetime outside 300 s to that access lifetime, or to 3600 s where it is
      itself out of range; and a negative reuse or one that leaves less than 90 s. */
  lemma FaultsAre(a: Alias, e: AliasError)
    ensures var (lifetime, most) := (AssertionLifetimeS(a), if 600 <= a.lifetimeS <= 3600 then a.lifetimeS else 3600);
            e in AliasErrors(a) <==>
              match e
              case LifetimeOutOfRange => a.lifetimeS < 600 || 3600 < a.lifetimeS
              case AssertionLifetimeOutOfRange(maximum) => maximum == most && (lifetime < 300 || most < lifetime)
              case ReuseOutOfRange(maximum) => maximum == lifetime - 90 && (a.assertionReuseS < 0 || lifetime - 90 < a.assertionReuseS)
  {
  }
}

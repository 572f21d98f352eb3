/** What the notifier says about one signature's window over a whole run, whatever serves,
    purges, evictions and replacements happen between its sweeps. */
module MintNotices {
  import opened Basics
  import opened Requests
  import opened Config
  import opened ReuseSpec
  import opened Mint
  import opened MintBase
  import ReuseLaws

  /** The signature's entry is held, under the key of the request that made it. */
  predicate HeldNow(s: Sys, id: nat) {
    id < |s.touches| && var k := s.touches[id].ticket.key; k in s.g.cache && s.g.cache[k].id == id
  }

  function EntryNow(s: Sys, id: nat): Entry
    requires HeldNow(s, id)
  {
    s.g.cache[s.touches[id].ticket.key]
  }

  function Saying(notice: Option<string>): seq<string> {
    match notice
    case None => []
    case Some(text) => [text]
  }

  /** What one step says about the entry of touch id: only a sweep speaks, and only of
      entries held. */
  function SaidAt(s: Sys, step: Step, id: nat): seq<string> {
    if step.SweepNow? && HeldNow(s, id) then Saying(Notice(EntryNow(s, id), s.now)) else []
  }

  /** Everything the first n steps say about it. */
  ghost function SaidBy(r: Run, id: nat, n: nat): seq<string>
    requires n <= |r.steps| < |r.states|
  {
    if n == 0 then [] else SaidBy(r, id, n - 1) + SaidAt(r.states[n - 1], r.steps[n - 1], id)
  }

  predicate InTheCard(s: Sys, id: nat) {
    InFlight(s.outer) == Some(id)
  }

  /** How far the announcements can have got: none before the entry is kept, at most the
      first while it is held, and never more than one of each. */
  predicate Heard(s: Sys, id: nat, said: seq<string>) {
    if id >= |s.touches| || InTheCard(s, id) then said == []
    else
      var alias := s.touches[id].ticket.key.alias;
      if !HeldNow(s, id) then AtMostBoth(alias, said)
      else said == [] || (said == [ClosingText(alias)] && EntryNow(s, id).notifiedPre)
  }

  predicate AtMostBoth(alias: string, said: seq<string>) {
    said in {[], [ClosingText(alias)], [ExpiredText(alias)], [ClosingText(alias), ExpiredText(alias)]}
  }

  /** Tickets of touches never change, and a touch enters the card only when it is new. */
  lemma TouchesStay(cfg: Settings, s: Sys, step: Step, s': Sys, id: nat)
    requires Next(cfg, s, step, s') && id < |s.touches|
    ensures id < |s'.touches| && s'.touches[id].ticket == s.touches[id].ticket
    ensures InTheCard(s', id) ==> InTheCard(s, id)
  {
    if !OfRequest(step) {
      WorldOnlyRemoves(cfg, s, step, s');
    } else {
      FlightContinues(cfg, s, step, s');
      RequestKeepsTickets(cfg, s, step, s', id);
    }
  }

  lemma RequestKeepsTickets(cfg: Settings, s: Sys, step: Step, s': Sys, id: nat)
    requires OfRequest(step) && Next(cfg, s, step, s') && id < |s.touches|
    ensures id < |s'.touches| && s'.touches[id].ticket == s.touches[id].ticket
  {
    match step
    case Begin => assert BeginStep(s, s');
    case SignReturns(outcome) => assert SignReturnsStep(cfg, s, outcome, s');
    case Complete => assert CompleteStep(s, s');
    case _ =>
  }

  lemma NewTouchIsInTheCard(cfg: Settings, s: Sys, step: Step, s': Sys, id: nat)
    requires Next(cfg, s, step, s') && |s.touches| <= id < |s'.touches|
    ensures InTheCard(s', id)
  {
    if !OfRequest(step) {
      WorldOnlyRemoves(cfg, s, step, s');
    }
  }

  /** Besides the sweep nothing marks an entry. */
  lemma OnlySweepsMark(cfg: Settings, s: Sys, step: Step, s': Sys, k: Key)
    requires Next(cfg, s, step, s') && !OfRequest(step) && !step.SweepNow? && k in s'.g.cache
    ensures k in s.g.cache && s'.g.cache[k] == s.g.cache[k]
  {
  }

  /** Between sweeps an entry that is still held and was not just made is unchanged. */
  lemma UnmarkedBetweenSweeps(cfg: Settings, s: Sys, step: Step, s': Sys, k: Key)
    requires Next(cfg, s, step, s') && !step.SweepNow? && k in s'.g.cache
    ensures (k in s.g.cache && s'.g.cache[k] == s.g.cache[k])
         || (step.Insert? && s.outer.Minting? && s.outer.phase.Prepared? && s.outer.phase.made == Some(s'.g.cache[k]))
  {
    if !OfRequest(step) {
      OnlySweepsMark(cfg, s, step, s', k);
    } else if step.Insert? {
      InsertedFrom(s, s', k);
    } else {
      RequestOnlyInserts(cfg, s, step, s');
    }
  }

  /** One sweep, as far as a held entry is concerned. */
  lemma SweepSpeaks(s: Sys, s': Sys, id: nat, said: seq<string>)
    requires s' == s.(g := s.g.(cache := Sweep(s.g.cache, s.now))) && !InTheCard(s, id)
    requires Heard(s, id, said) && (HeldNow(s, id) ==> EntryNow(s, id).key == s.touches[id].ticket.key)
    ensures Heard(s', id, said + SaidAt(s, SweepNow, id))
  {
    assert said + [] == said;
    if HeldNow(s, id) {
      var (e, alias) := (EntryNow(s, id), s.touches[id].ticket.key.alias);
      assert [] + [ClosingText(alias)] == [ClosingText(alias)] && [] + [ExpiredText(alias)] == [ExpiredText(alias)];
      assert [ClosingText(alias)] + [ExpiredText(alias)] == [ClosingText(alias), ExpiredText(alias)];
      assert HeldNow(s', id) ==> EntryNow(s', id) == Swept(e, s.now);
    }
  }

  /** An entry that a step finds out of the card is new to the cache only after an insert. */
  lemma HeldBefore(cfg: Settings, s: Sys, step: Step, s': Sys, id: nat)
    requires OuterOk(cfg, s) && Next(cfg, s, step, s') && !step.SweepNow?
    requires id < |s.touches| && id < |s'.touches| && s'.touches[id].ticket == s.touches[id].ticket
    requires !InTheCard(s, id) && HeldNow(s', id)
    ensures HeldNow(s, id) && EntryNow(s', id) == EntryNow(s, id)
  {
    UnmarkedBetweenSweeps(cfg, s, step, s', s.touches[id].ticket.key);
    if s.outer.Minting? && s.outer.phase.Prepared? {
      PreparedEntryOk(cfg, s);
    }
  }

  lemma HeardStays(s: Sys, s': Sys, id: nat, said: seq<string>)
    requires Heard(s, id, said) && id < |s.touches| && id < |s'.touches| && s'.touches[id].ticket == s.touches[id].ticket
    requires InTheCard(s', id) ==> InTheCard(s, id)
    requires !InTheCard(s, id) && HeldNow(s', id) ==> HeldNow(s, id) && EntryNow(s', id) == EntryNow(s, id)
    ensures Heard(s', id, said)
  {
  }

  lemma QuietStepKeepsHeard(cfg: Settings, s: Sys, step: Step, s': Sys, id: nat, said: seq<string>)
    requires OuterOk(cfg, s) && Next(cfg, s, step, s') && !step.SweepNow? && id < |s.touches|
    requires Heard(s, id, said)
    ensures Heard(s', id, said)
  {
    TouchesStay(cfg, s, step, s', id);
    if !InTheCard(s, id) && HeldNow(s', id) {
      HeldBefore(cfg, s, step, s', id);
    }
    HeardStays(s, s', id, said);
  }

  lemma {:induction false} RunIsHeard(cfg: Settings, r: Run, id: nat, n: nat)
    requires IsRun(cfg, r) && n < |r.states|
    ensures Heard(r.states[n], id, SaidBy(r, id, n))
  {
    if n > 0 {
      var (s, step, s', said) := (r.states[n - 1], r.steps[n - 1], r.states[n], SaidBy(r, id, n - 1));
      RunIsHeard(cfg, r, id, n - 1);
      RunKeepsBase(cfg, r, n - 1);
      assert StepAt(cfg, r, n - 1);
      StepIsHeard(cfg, s, step, s', id, said);
    }
  }

  lemma StepIsHeard(cfg: Settings, s: Sys, step: Step, s': Sys, id: nat, said: seq<string>)
    requires Base(cfg, s) && Next(cfg, s, step, s') && Heard(s, id, said)
    ensures Heard(s', id, said + SaidAt(s, step, id))
  {
    assert said + [] == said;
    if id >= |s.touches| {
      if id < |s'.touches| {
        NewTouchIsInTheCard(cfg, s, step, s', id);
      }
    } else if step.SweepNow? {
      if HeldNow(s, id) {
        assert HeldOk(cfg, s, s.touches[id].ticket.key);
      }
      if !InTheCard(s, id) {
        SweepSpeaks(s, s', id, said);
      }
    } else {
      QuietStepKeepsHeard(cfg, s, step, s', id, said);
    }
  }

  /** And when a sweep meets the entry, it says what is then due: the close of a window that is
      over, or, in its last minute, that it is about to close, unless it lasted no longer
      than that minute or this was said before. */
  lemma SweepSaysWhatIsDue(s: Sys, id: nat)
    requires HeldNow(s, id)
    ensures var e := EntryNow(s, id);
            && (e.windowEndsAt > e.completedAt && e.windowEndsAt <= s.now ==>
                  SaidAt(s, SweepNow, id) == ["window for " + e.key.alias + " expired; next mint needs a touch"])
            && (e.windowEndsAt - 60_000_000_000 <= s.now < e.windowEndsAt && s.now < e.expiresAt && !e.notifiedPre
                && e.windowEndsAt - e.completedAt > 60_000_000_000 ==>
                  SaidAt(s, SweepNow, id) == ["window for " + e.key.alias + " expires in 60s"])
  {
    ReuseLaws.NoticeIff(EntryNow(s, id), s.now);
  }

  /** Over any run, whatever is served, purged, evicted or replaced meanwhile, the window of
      one signature is announced at most once ahead of its close and at most once at its
      close, in that order. */
  lemma EachWindowAnnouncedOnce(cfg: Settings, r: Run, id: nat)
    requires IsRun(cfg, r) && id < |r.states[|r.steps|].touches|
    ensures AtMostBoth(r.states[|r.steps|].touches[id].ticket.key.alias, SaidBy(r, id, |r.steps|))
  {
    RunIsHeard(cfg, r, id, |r.steps|);
  }
}

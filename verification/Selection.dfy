/** Choosing the one configured card among the readers, and giving every other session back.

    A session is named by the reader it was opened on. */
module Selection {
  import opened Basics

  /** What a reader does when it is opened and asked for its card's serial. */
  datatype Reader = Unopenable(error: string) | Unreadable(error: string) | Present(serial: nat)

  datatype Failure = Failure(reader: nat, stage: string, error: string)

  datatype Choice =
    | Selected(reader: nat, serial: nat)
    | NotEnumerated(error: string)
    | NoneUsable(failures: seq<Failure>)
    | Several(first: nat, second: nat)

  predicate Configured(r: Reader, wanted: set<nat>) {
    r.Present? && r.serial in wanted
  }

  /** Every one of the first n readers that could not be opened or read, in the order tried. */
  function FailuresOf(readers: seq<Reader>, n: nat): seq<Failure>
    requires n <= |readers|
  {
    if n == 0 then []
    else
      FailuresOf(readers, n - 1) +
      match readers[n - 1]
      case Unopenable(error) => [Failure(n - 1, "open", error)]
      case Unreadable(error) => [Failure(n - 1, "read serial for", error)]
      case Present(_) => []
  }

  /** None of the first n readers holds a configured card. */
  predicate NoneUpTo(readers: seq<Reader>, wanted: set<nat>, n: nat)
    requires n <= |readers|
  {
    forall i :: 0 <= i < n ==> !Configured(readers[i], wanted)
  }

  /** Reader i holds the only configured card among the first n. */
  predicate OnlyUpTo(readers: seq<Reader>, wanted: set<nat>, i: nat, n: nat)
    requires n <= |readers|
  {
    i < n && Configured(readers[i], wanted) && forall k :: 0 <= k < n && k != i ==> !Configured(readers[k], wanted)
  }

  /** The right outcome for these readers: the one configured card there is, the failures in
      order when there is none, the first two when there are more. */
  ghost predicate Right(readers: seq<Reader>, wanted: set<nat>, choice: Choice) {
    match choice
    case NotEnumerated(_) => false
    case NoneUsable(failures) => NoneUpTo(readers, wanted, |readers|) && failures == FailuresOf(readers, |readers|)
    case Selected(i, serial) => OnlyUpTo(readers, wanted, i, |readers|) && readers[i] == Present(serial)
    case Several(_, _) => exists j: nat :: SeveralUpTo(readers, wanted, choice, j)
  }

  ghost predicate SeveralUpTo(readers: seq<Reader>, wanted: set<nat>, choice: Choice, j: nat) {
    exists i: nat :: SeveralAt(readers, wanted, choice, i, j)
  }

  predicate SeveralAt(readers: seq<Reader>, wanted: set<nat>, choice: Choice, i: nat, j: nat) {
    && choice.Several? && j < |readers| && OnlyUpTo(readers, wanted, i, j)
    && Configured(readers[j], wanted) && readers[i] == Present(choice.first) && readers[j] == Present(choice.second)
  }

  /** tried readers have been opened, and each session but the one kept closed once. */
  ghost predicate GivenBack(readers: seq<Reader>, tried: nat, kept: Option<nat>, closes: multiset<nat>) {
    forall i: nat :: closes[i] == if i < tried <= |readers| && !readers[i].Unopenable? && kept != Some(i) then 1 else 0
  }

  lemma OneMoreTried(readers: seq<Reader>, tried: nat, kept: Option<nat>, closes: multiset<nat>)
    requires tried < |readers| && GivenBack(readers, tried, kept, closes) && kept != Some(tried)
    ensures readers[tried].Unopenable? ==> GivenBack(readers, tried + 1, kept, closes)
    ensures !readers[tried].Unopenable? ==> GivenBack(readers, tried + 1, kept, closes + multiset{tried})
    ensures kept == None ==> GivenBack(readers, tried + 1, Some(tried), closes)
  {
  }

  lemma KeptGoesToo(readers: seq<Reader>, tried: nat, kept: nat, closes: multiset<nat>)
    requires kept < tried <= |readers| && GivenBack(readers, tried, Some(kept), closes) && !readers[kept].Unopenable?
    ensures GivenBack(readers, tried, None, closes + multiset{kept})
  {
  }

  function Kept(choice: Choice): Option<nat> {
    if choice.Selected? then Some(choice.reader) else None
  }

  /** What the loop knows after tried readers, with the card selected so far. */
  ghost predicate Tried(readers: seq<Reader>, wanted: set<nat>, tried: nat, selected: Pick, failures: seq<Failure>) {
    && tried <= |readers| && failures == FailuresOf(readers, tried)
    && match selected
       case None => NoneUpTo(readers, wanted, tried)
       case Some((i, serial)) => OnlyUpTo(readers, wanted, i, tried) && readers[i] == Present(serial)
  }

  type Pick = Option<(nat, nat)>

  function PickedReader(selected: Pick): Option<nat> {
    if selected.Some? then Some(selected.value.0) else None
  }

  /** Opens one more reader and asks for its card's serial: the body of the selection loop.
      second is the serial of a second configured card, which ends it. */
  method TryReader(readers: seq<Reader>, wanted: set<nat>, reader: nat, selected: Pick, failures: seq<Failure>, closes: multiset<nat>)
    returns (selected': Pick, failures': seq<Failure>, closes': multiset<nat>, second: Option<nat>)
    requires reader < |readers| && Tried(readers, wanted, reader, selected, failures)
    requires GivenBack(readers, reader, PickedReader(selected), closes)
    ensures second.None? ==>
              && Tried(readers, wanted, reader + 1, selected', failures')
              && GivenBack(readers, reader + 1, PickedReader(selected'), closes')
    ensures second.Some? ==>
              && selected.Some? && selected' == selected && GivenBack(readers, reader + 1, None, closes')
              && SeveralAt(readers, wanted, Several(selected.value.1, second.value), selected.value.0, reader)
  {
    OneMoreTried(readers, reader, PickedReader(selected), closes);
    selected', failures', closes', second := selected, failures, closes, None;
    match readers[reader]
    case Unopenable(error) =>
      failures' := failures + [Failure(reader, "open", error)];
    case Unreadable(error) =>
      closes' := closes + multiset{reader};
      failures' := failures + [Failure(reader, "read serial for", error)];
    case Present(serial) =>
      if serial !in wanted {
        closes' := closes + multiset{reader};
      } else if selected.Some? {
        KeptGoesToo(readers, reader + 1, selected.value.0, closes + multiset{reader});
        closes' := closes + multiset{reader} + multiset{selected.value.0};
        second := Some(serial);
      } else {
        selected' := Some((reader, serial));
      }
  }

  /** The selection loop. tried counts the readers it opened or failed to open, and closes
      the sessions it closed.

      The choice is the right one, whatever the other readers do; and on every way out each
      session that was opened has been closed exactly once, save the one returned. Only a
      second configured card stops the loop before the last reader. */
  method OpenSelected(listing: Result<seq<Reader>, string>, serials: seq<nat>)
    returns (choice: Choice, tried: nat, closes: multiset<nat>)
    ensures listing.Err? ==> choice == NotEnumerated(listing.error) && closes == multiset{}
    ensures listing.Ok? ==>
              var (readers, wanted) := (listing.value, set s | s in serials);
              && Right(readers, wanted, choice)
              && tried <= |readers| && GivenBack(readers, tried, Kept(choice), closes)
              && if choice.Several? then tried > 0 && SeveralUpTo(readers, wanted, choice, tried - 1)
                 else tried == |readers|
  {
    tried, closes := 0, multiset{};
    if listing.Err? {
      return NotEnumerated(listing.error), 0, closes;
    }
    var (readers, wanted) := (listing.value, set s | s in serials);
    var selected: Pick := None;
    var failures: seq<Failure> := [];
    while tried < |readers|
      invariant Tried(readers, wanted, tried, selected, failures)
      invariant GivenBack(readers, tried, PickedReader(selected), closes)
    {
      var second: Option<nat>;
      selected, failures, closes, second := TryReader(readers, wanted, tried, selected, failures, closes);
      tried := tried + 1;
      if second.Some? {
        choice := Several(selected.value.1, second.value);
        assert SeveralAt(readers, wanted, choice, selected.value.0, tried - 1);
        assert SeveralUpTo(readers, wanted, choice, tried - 1);
        return;
      }
    }
    choice := if selected.Some? then Selected(selected.value.0, selected.value.1) else NoneUsable(failures);
  }

  /** The readers leave one right outcome and no other. */
  lemma RightIsUnique(readers: seq<Reader>, wanted: set<nat>, a: Choice, b: Choice)
    requires Right(readers, wanted, a) && Right(readers, wanted, b)
    ensures a == b
  {
    if a.Several? && b.Several? {
      var j, n :| SeveralUpTo(readers, wanted, a, j) && SeveralUpTo(readers, wanted, b, n);
      var i, k :| SeveralAt(readers, wanted, a, i, j) && SeveralAt(readers, wanted, b, k, n);
      assert i == k && j == n;
    }
  }

  /** Failures elsewhere never decide: exchanging a reader without a configured card for any
      other such reader, failing or not, leaves the right outcome as it was; where nothing is
      usable, that is still so, and only the list of failures may differ. */
  lemma FailuresElsewhereDoNotDecide(readers: seq<Reader>, i: nat, other: Reader, wanted: set<nat>, choice: Choice)
    requires i < |readers| && !Configured(readers[i], wanted) && !Configured(other, wanted)
    ensures var others := readers[i := other];
            if choice.NoneUsable? then
              Right(readers, wanted, NoneUsable(FailuresOf(readers, |readers|))) <==> Right(others, wanted, NoneUsable(FailuresOf(others, |others|)))
            else Right(readers, wanted, choice) <==> Right(others, wanted, choice)
  {
    StillRight(readers, i, other, wanted, choice);
    StillRight(readers[i := other], i, readers[i], wanted, choice);
    assert readers[i := other][i := readers[i]] == readers;
  }

  lemma StillRight(readers: seq<Reader>, i: nat, other: Reader, wanted: set<nat>, choice: Choice)
    requires i < |readers| && !Configured(readers[i], wanted) && !Configured(other, wanted)
    ensures NoneUpTo(readers, wanted, |readers|) ==> NoneUpTo(readers[i := other], wanted, |readers|)
    ensures Right(readers, wanted, choice) && !choice.NoneUsable? ==> Right(readers[i := other], wanted, choice)
  {
    if choice.Several? && Right(readers, wanted, choice) {
      var n :| SeveralUpTo(readers, wanted, choice, n);
      var k :| SeveralAt(readers, wanted, choice, k, n);
      assert SeveralAt(readers[i := other], wanted, choice, k, n);
      assert SeveralUpTo(readers[i := other], wanted, choice, n);
    }
  }

  predicate Ascending(fs: seq<Failure>) {
    forall p, q :: 0 <= p < q < |fs| ==> fs[p].reader < fs[q].reader
  }

  lemma AscendingPlus(fs: seq<Failure>, f: Failure)
    requires Ascending(fs) && forall g :: g in fs ==> g.reader < f.reader
    ensures Ascending(fs + [f])
  {
    assert forall p :: 0 <= p < |fs| ==> fs[p] in fs;
  }

  /** The report of failures: every reader that could not be opened or read is listed once,
      with the stage and the error it failed with, in the order the readers were tried, and
      nothing else is. */
  lemma {:induction false} FailuresAreListed(readers: seq<Reader>, n: nat)
    requires n <= |readers|
    ensures forall f :: f in FailuresOf(readers, n) <==> FailedAs(readers, n, f)
    ensures Ascending(FailuresOf(readers, n))
  {
    if n > 0 {
      FailuresAreListed(readers, n - 1);
      var earlier := FailuresOf(readers, n - 1);
      match readers[n - 1]
      case Unopenable(error) => AscendingPlus(earlier, Failure(n - 1, "open", error));
      case Unreadable(error) => AscendingPlus(earlier, Failure(n - 1, "read serial for", error));
      case Present(_) => assert FailuresOf(readers, n) == earlier;
    }
  }

  predicate FailedAs(readers: seq<Reader>, n: nat, f: Failure)
    requires n <= |readers|
  {
    && f.reader < n
    && (|| (readers[f.reader] == Unopenable(f.error) && f.stage == "open")
        || (readers[f.reader] == Unreadable(f.error) && f.stage == "read serial for"))
  }

  /** The right outcome, spelled out: a card is selected exactly when it is configured and no
      other readable card is, and nothing is usable exactly when no readable card is. */
  lemma SelectedIff(readers: seq<Reader>, wanted: set<nat>, i: nat, serial: nat, failures: seq<Failure>)
    ensures Right(readers, wanted, Selected(i, serial)) <==>
              && i < |readers| && readers[i] == Present(serial) && serial in wanted
              && forall k :: 0 <= k < |readers| && k != i && readers[k].Present? ==> readers[k].serial !in wanted
    ensures Right(readers, wanted, NoneUsable(failures)) <==>
              && failures == FailuresOf(readers, |readers|)
              && forall k :: 0 <= k < |readers| && readers[k].Present? ==> readers[k].serial !in wanted
  {
  }
}

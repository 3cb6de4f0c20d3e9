/** Ids used again: a card created under a purged id inherits its decisions.  Exactly when all the
    returns on such an id stay within two plus its unblocks, and boards on which they do not. */
module Recycled {
  import opened Seqs
  import opened Text
  import opened Ledger
  import opened Life
  import opened ResearchRuns
  import opened Approval
  import opened Strikes
  import opened Paths
  import opened Board
  import opened Lives

  predicate ReturnsBounded(c: Card) {
    |Filter(c.decisions, OfKind(BriefReturned))| <= 2 + UnblockCount(c.decisions)
  }

  /** What a card may inherit: as many returns of earlier texts as there are unblocks, one more if it is
      born blocked, or if it is rejected what the bound itself allows. */
  ghost predicate BoundedBirth(c: Card) {
    if IsRejected(c.decisions) then ReturnsBounded(c)
    else |ForeignReturns(c)| <= UnblockCount(c.decisions) + if HeldByRecord(c.decisions) then 1 else 0
  }

  // ---------- the condition is enough ----------

  /** A rejected card takes no return and no unblock. */
  lemma RejectedStep(c: Card, s: Step)
    requires IsRejected(c.decisions)
    ensures IsRejected(Perform(c, s).decisions) && ReturnsBounded(Perform(c, s)) == ReturnsBounded(c)
  {
    hide Allowed, DeriveMine, FactsOf, CardBlock, CardFlow, Filter;
    if s.act.Decide? && Allowed(c, s.act, s.at) {
      var d := DecisionFrom(c, s.act, s.at);
      RejectedGate(c, s.act, s.at);
      FilterSnoc(c.decisions, d, OfKind(Rejected));
      FilterSnoc(c.decisions, d, OfKind(BriefReturned));
      FilterSnoc(c.decisions, d, OfKind(Unblocked));
    }
  }

  lemma RejectedGate(c: Card, act: Act, at: Moment)
    requires IsRejected(c.decisions) && act.Decide? && Allowed(c, act, at)
    ensures act.verb.Delete? || act.verb.Restore?
  {
    hide DeriveMine, CardBlock, CardFlow, FactsOf, IsRejected;
    GateColumn(c, at);
  }

  lemma {:induction false} RejectedStays(c: Card, steps: seq<Step>)
    requires IsRejected(c.decisions)
    ensures IsRejected(Exec(c, steps).decisions) && ReturnsBounded(Exec(c, steps)) == ReturnsBounded(c)
  {
    hide Perform, ReturnsBounded, IsRejected;
    if steps != [] {
      RejectedStays(c, Init(steps));
      RejectedStep(Exec(c, Init(steps)), Last(steps));
    }
  }

  /** Held by the record of an earlier card until a first unblock, and conserved from then on. */
  ghost predicate HeldOrConserved(c: Card, base: nat, own: nat, foreign: seq<Decision>) {
    || (HeldByRecord(c.decisions) && UnblockCount(c.decisions) == base && |OwnReturns(c)| == own && ForeignReturns(c) == foreign)
    || VerdictsConserved(c, base + 1, foreign)
  }

  lemma HeldStep(c: Card, s: Step, now: int, base: nat, own: nat, foreign: seq<Decision>)
    requires HeldOrConserved(c, base, own, foreign) && own < STRIKE_LIMIT && FairRecord(c.decisions)
    requires FairRecord(Perform(c, s).decisions) && InOrder(c, now) && now < s.at.clock.now
    ensures HeldOrConserved(Perform(c, s), base, own, foreign)
  {
    hide Allowed, FairRecord, OwnReturns, ForeignReturns, HeldByRecord, InOrder, VerdictsConserved, UnblockCount;
    if VerdictsConserved(c, base + 1, foreign) {
      VerdictsKept(c, s, now, base + 1, foreign);
    } else if Perform(c, s) != c {
      if s.act.Decide? {
        HeldDecides(c, s.act, s.at, now, base, own, foreign);
      } else if s.act.Settle? {
        OwnBySettling(c, s.act.receipts);
      } else {
        OwnByEvent(c, s.act, s.at);
      }
    }
  }

  lemma HeldDecides(c: Card, act: Act, at: Moment, now: int, base: nat, own: nat, foreign: seq<Decision>)
    requires HeldByRecord(c.decisions) && UnblockCount(c.decisions) == base && |OwnReturns(c)| == own < STRIKE_LIMIT
    requires ForeignReturns(c) == foreign && InOrder(c, now) && now < at.clock.now
    requires act.Decide? && Allowed(c, act, at) && FairRecord(Next(c, act, at).decisions)
    ensures HeldOrConserved(Next(c, act, at), base, own, foreign)
  {
    hide Allowed, FairRecord, OwnReturns, ForeignReturns, HeldByRecord, UnblockCount, SinceUnblock, CardBlock, FactsOf, TimesOfKind, Brief;
    var d := DecisionFrom(c, act, at);
    GateMeans(c, act, at);
    RecordBlocks(c, at);
    OwnByDecision(c, act, at, now);
    SinceUnblockSnoc(c.decisions, d, now);
    if !act.verb.Unblock? {
      TimesSnoc(c.decisions, d, ChangesRequested);
      HeldSnoc(c.decisions, d);
    }
  }

  lemma {:induction false} HeldAlways(c: Card, start: int, steps: seq<Step>)
    requires Born(c, start) && Rising(start, steps) && FairRecord(c.decisions) && HeldByRecord(c.decisions)
    ensures HeldOrConserved(Exec(c, steps), UnblockCount(c.decisions), |OwnReturns(c)|, ForeignReturns(c))
  {
    hide Perform, HeldOrConserved, FairRecord, HeldByRecord, Born, OwnReturns;
    BornOwn(c, start);
    if steps == [] {
      HeldAtBirth(c);
    } else {
      HeldAlways(c, start, Init(steps));
      BornInOrder(c, start);
      ReachableInOrder(c, start, Init(steps));
      VerdictsAlways(c, start, Init(steps));
      VerdictsAlways(c, start, steps);
      HeldStep(Exec(c, Init(steps)), Last(steps), EndOf(start, Init(steps)), UnblockCount(c.decisions), |OwnReturns(c)|, ForeignReturns(c));
    }
  }

  lemma HeldAtBirth(c: Card)
    requires HeldByRecord(c.decisions)
    ensures HeldOrConserved(c, UnblockCount(c.decisions), |OwnReturns(c)|, ForeignReturns(c))
  {
  }

  /** A text is returned once, so a new card has at most one return of its own. */
  lemma BornOwn(c: Card, start: int)
    requires Born(c, start) && FairRecord(c.decisions)
    ensures |OwnReturns(c)| < STRIKE_LIMIT
  {
    BornHasNoRuns(c, start);
    assert RecordedBy(c.events) == {c.events[1].hash};
    ReturnedOnce(c.decisions, c.events[1].hash);
  }

  /** From such a birth, all the returns on the id stay within two plus its unblocks for the card's
      whole life. */
  lemma BoundedBirthStays(c: Card, start: int, steps: seq<Step>)
    requires Born(c, start) && Rising(start, steps) && FairRecord(c.decisions) && BoundedBirth(c)
    ensures ReturnsBounded(Exec(c, steps))
  {
    hide Exec, FairRecord, HeldByRecord, UnblockCount, OwnReturns, ForeignReturns, Born, IsRejected;
    if IsRejected(c.decisions) {
      RejectedStays(c, steps);
    } else {
      ReturnsAndChangesAreConserved(c, start, steps);
      if HeldByRecord(c.decisions) {
        BornOwn(c, start);
        HeldAlways(c, start, steps);
      }
    }
  }

  // ---------- and needed ----------

  /** A free card that has no run takes a new text and its return. */
  lemma CanReturn(c: Card, start: int, h: Hash, day: Calendar, timeout: int) returns (d: Card, now: int)
    requires Free(c, start) && Unused(c, h) && FactsAt(c).runs == []
    ensures Reaches(c, start, d, now, day)
    ensures |OwnReturns(d)| == |OwnReturns(c)| + 1 && ForeignReturns(d) == ForeignReturns(c)
    ensures UnblockCount(d.decisions) == UnblockCount(c.decisions)
    ensures OwnReturns(c) == [] ==> Free(d, now) && FactsAt(d).runs == []
    ensures forall other | other != h && Unused(c, other) :: Unused(d, other)
  {
    hide Reaches, Allowed, FactsOf, Free, OwnReturns, ForeignReturns, UnblockCount, RecordedBy, CardFlow;
    var at, at' := OnDay(start + 1, day, timeout), OnDay(start + 2, day, timeout);
    ReachesItself(c, start, day);
    RunlessFlow(FactsAt(c), c.decisions, at.clock, timeout);
    MayWrite(c, start, h, at);
    ReachesNext(c, start, c, start, Writing(h), at, day);
    var e := Next(c, Writing(h), at);
    MayReturn(e, start + 1, h, at');
    ReachesNext(c, start, e, start + 1, Returning(h), at', day);
    d, now := Next(e, Returning(h), at'), at'.clock.now;
  }

  lemma RunlessFlow(f: Facts, ds: seq<Decision>, clock: Clock, timeout: int)
    requires f.runs == []
    ensures CardFlow(f, ds, clock, timeout).column in Briefable && !CardFlow(f, ds, clock, timeout).column.Done?
  {
  }

  /** A new card that is not rejected can come to two returns of its own, unblocked only if its record
      holds it. */
  lemma CanReturnTwice(c: Card, start: int, h: Hash, h': Hash, day: Calendar, timeout: int) returns (d: Card, now: int)
    requires Born(c, start) && FairRecord(c.decisions) && !IsRejected(c.decisions) && h != h' && Unused(c, h) && Unused(c, h')
    ensures Reaches(c, start, d, now, day)
    ensures |OwnReturns(d)| == 2 && ForeignReturns(d) == ForeignReturns(c)
    ensures UnblockCount(d.decisions) == UnblockCount(c.decisions) + if HeldByRecord(c.decisions) then 1 else 0
  {
    hide Reaches, FactsOf, Free, OwnReturns, ForeignReturns, UnblockCount, HeldByRecord, Unused, FairRecord, Born, IsRejected;
    BornOwn(c, start);
    BornInOrder(c, start);
    BornHasNone(c, start);
    var a, i := CanBeFreed(c, start, day, timeout);
    d, now := CanReturn(a, i, h, day, timeout);
    ReachesOn(c, start, a, i, d, now, day);
    if OwnReturns(c) == [] {
      var b, j := d, now;
      d, now := CanReturn(b, j, h', day, timeout);
      ReachesOn(c, start, b, j, d, now, day);
    }
  }

  lemma BornHasNone(c: Card, start: int)
    requires Born(c, start)
    ensures FactsAt(c).runs == [] && FactsAt(c).holds == [] && FactsAt(c).fields == c.fields
  {
    hide BriefOrdered;
    BornInOrder(c, start);
    FactsInOrder(c, start);
    assert c.events == [c.events[0], c.events[1]];
    assert Init(c.events) == [c.events[0]] && Init([c.events[0]]) == [];
    assert RunsIn([c.events[0]], c.receipts) == [] && HoldTriggers([c.events[0]]) == [] && FieldsAfter(c.fields, [c.events[0]]) == c.fields;
  }

  /** All the returns on an id stay within two plus its unblocks, along every life of the card, if and
      only if the card was born to it. */
  lemma ReturnsBoundedExactlyWhen(c: Card, start: int, h: Hash, h': Hash, day: Calendar, timeout: int)
    requires Born(c, start) && FairRecord(c.decisions) && h != h' && Unused(c, h) && Unused(c, h')
    ensures (forall d, now | Reaches(c, start, d, now, day) :: ReturnsBounded(d)) <==> BoundedBirth(c)
  {
    hide Reaches, FairRecord, OwnReturns, ForeignReturns, UnblockCount, HeldByRecord, Unused, IsRejected, Born;
    if BoundedBirth(c) {
      forall d, now | Reaches(c, start, d, now, day) ensures ReturnsBounded(d) {
        ReachedStaysBounded(c, start, d, now, day);
      }
    } else if IsRejected(c.decisions) {
      ReachesItself(c, start, day);
    } else {
      var d, now := CanReturnTwice(c, start, h, h', day, timeout);
      ReturnsSplit(d.decisions, RecordedBy(d.events));
      ReturnsAre(d);
    }
  }

  lemma ReturnsAre(d: Card)
    ensures |Filter(d.decisions, OfKind(BriefReturned))| == |OwnReturns(d)| + |ForeignReturns(d)|
  {
    ReturnsSplit(d.decisions, RecordedBy(d.events));
  }

  lemma ReachedStaysBounded(c: Card, start: int, d: Card, now: int, day: Calendar)
    requires Born(c, start) && FairRecord(c.decisions) && BoundedBirth(c) && Reaches(c, start, d, now, day)
    ensures ReturnsBounded(d)
  {
    hide FairRecord, BoundedBirth, Born, ReturnsBounded, Exec, Accepted, Rising;
    var steps :| ReachedBy(c, start, d, now, day, steps);
    BoundedBirthStays(c, start, steps);
  }

  // ---------- boards that come to it ----------

  function On(now: int, day: Calendar, timeout: int): Instant {
    Instant(Clock(now, day(now)), map[], timeout)
  }

  /** A run of the board from the empty one, over by `now`. */
  ghost predicate RunTo(sha: string -> string, steps: seq<Timed>, now: int) {
    BoardRising(0, steps) && BoardEnd(0, steps) <= now
  }

  /** Some run of the board leaves the card under the id. */
  ghost predicate OnBoard(sha: string -> string, id: Id, c: Card, now: int) {
    exists steps: seq<Timed> :: RunTo(sha, steps, now) && Holds(Play(EmptyBoard, sha, steps), id, c)
  }

  predicate Holds(w: World, id: Id, c: Card) {
    id in w.cards && id !in w.trash && CardIn(id, w.cards[id], w) == c
  }

  /** Some run of the board leaves no card under the id, and these decisions. */
  ghost predicate OffBoard(sha: string -> string, id: Id, ds: seq<Decision>, now: int) {
    exists steps: seq<Timed> :: RunTo(sha, steps, now) && Lacks(Play(EmptyBoard, sha, steps), id, ds)
  }

  predicate Lacks(w: World, id: Id, ds: seq<Decision>) {
    id !in w.cards && id !in w.trash && Filter(w.decisions, OfCard(id)) == ds
  }

  lemma RunNext(sha: string -> string, steps: seq<Timed>, now: int, v: Verbs, at: Instant)
    requires RunTo(sha, steps, now) && now < at.clock.now
    ensures RunTo(sha, steps + [Timed(v, at)], at.clock.now)
    ensures Play(EmptyBoard, sha, steps + [Timed(v, at)]) == Take(Play(EmptyBoard, sha, steps), sha, v, at)
  {
    hide Take;
    SnocParts(steps, Timed(v, at));
    forall i | 0 <= i < |steps| ensures steps[i].at.clock.now < at.clock.now {
      assert i < |steps| - 1 ==> steps[i].at.clock.now < steps[|steps| - 1].at.clock.now;
    }
  }

  lemma NothingYet(sha: string -> string, id: Id)
    ensures OffBoard(sha, id, [], 0)
  {
    var none: seq<Timed> := [];
    assert RunTo(sha, none, 0) && Lacks(Play(EmptyBoard, sha, none), id, []);
  }

  lemma BoardCreates(sha: string -> string, id: Id, ds: seq<Decision>, now: int, fields: Fields, text: string, at: Instant)
    returns (c: Card)
    requires OffBoard(sha, id, ds, now) && now < at.clock.now && id !in ReservedIds && DatesAgree(fields) && TextOk(text)
    requires StreamInOrder(ds, now)
    ensures OnBoard(sha, id, c, at.clock.now) && Born(c, at.clock.now) && c.decisions == ds && c.fields == fields && c.id == id
    ensures c.events[1].hash == TextHash(sha, text)
  {
    hide RunTo, TextOk;
    var steps :| RunTo(sha, steps, now) && Lacks(Play(EmptyBoard, sha, steps), id, ds);
    var w, v := Play(EmptyBoard, sha, steps), Create(Dave, id, fields, text);
    RunNext(sha, steps, now, v, at);
    var w' := Take(w, sha, v, at);
    c := CardIn(id, NewDir(sha, v, at.clock.now), w');
    assert Holds(Play(EmptyBoard, sha, steps + [Timed(v, at)]), id, c);
  }

  lemma BoardWrites(sha: string -> string, id: Id, c: Card, now: int, text: string, at: Instant)
    requires OnBoard(sha, id, c, now) && now < at.clock.now && TextOk(text)
    requires Allowed(c, Writing(TextHash(sha, text)), MomentFor(id, at))
    ensures OnBoard(sha, id, Next(c, Writing(TextHash(sha, text)), MomentFor(id, at)), at.clock.now)
  {
    hide RunTo, TextOk, TextHash, DeriveMine, Filter, MayBrief;
    var steps :| RunTo(sha, steps, now) && Holds(Play(EmptyBoard, sha, steps), id, c);
    var v := AddBrief(id, text, Dave, None);
    RunNext(sha, steps, now, v, at);
    assert Holds(Play(EmptyBoard, sha, steps + [Timed(v, at)]), id, Next(c, Writing(TextHash(sha, text)), MomentFor(id, at)));
  }

  /** Deciding anything but an approval of a page. */
  lemma BoardDecides(sha: string -> string, id: Id, c: Card, now: int, verb: Verb, hash: Option<Hash>, at: Instant)
    requires OnBoard(sha, id, c, now) && now < at.clock.now && !verb.Approve? && c.id == id
    requires Allowed(c, Decide(verb, hash, None, false), MomentFor(id, at))
    ensures OnBoard(sha, id, Next(c, Decide(verb, hash, None, false), MomentFor(id, at)), at.clock.now)
  {
    hide RunTo, DeriveMine, Filter;
    var steps :| RunTo(sha, steps, now) && Holds(Play(EmptyBoard, sha, steps), id, c);
    var w, v := Play(EmptyBoard, sha, steps), DecideIt(id, verb, None, hash, "no", "", None);
    RunNext(sha, steps, now, v, at);
    assert Strip("no") == "no";
    assert DecideOk(w, sha, v, at);
    DecisionsOfOthers(w.decisions, DecisionIn(v, at.clock.now), id);
    assert Holds(Play(EmptyBoard, sha, steps + [Timed(v, at)]), id, Next(c, Decide(verb, hash, None, false), MomentFor(id, at)));
  }

  /** A deleted card goes to the trash, and is purged once its time there is up. */
  lemma BoardPurges(sha: string -> string, id: Id, c: Card, now: int, at: Instant, later: Instant)
    requires OnBoard(sha, id, c, now) && now < at.clock.now < later.clock.now
    requires Deletion(c.decisions).Some? && Deletion(c.decisions).value + TRASH_SECONDS <= later.clock.now
    ensures OffBoard(sha, id, c.decisions, later.clock.now)
  {
    hide RunTo, DeriveMine, Filter, Deletion;
    var steps :| RunTo(sha, steps, now) && Holds(Play(EmptyBoard, sha, steps), id, c);
    RunNext(sha, steps, now, Board.Trash(id), at);
    var more := steps + [Timed(Board.Trash(id), at)];
    RunNext(sha, more, at.clock.now, Purge(id), later);
    assert Lacks(Play(EmptyBoard, sha, more + [Timed(Purge(id), later)]), id, c.decisions);
  }

  // ---------- a life of two returns ----------

  /** Nothing but returns, deletions and restores: no unblock, rejection, block or change request. */
  ghost predicate Worn(ds: seq<Decision>) {
    forall i | 0 <= i < |ds| :: ds[i].kind.BriefReturned? || ds[i].kind.Deleted? || ds[i].kind.Restored?
  }

  lemma WornMeans(ds: seq<Decision>)
    requires Worn(ds)
    ensures !IsRejected(ds) && UnblockCount(ds) == 0 && !HeldByRecord(ds)
  {
    FilterNone(ds, OfKind(Rejected));
    FilterNone(ds, OfKind(Unblocked));
    FilterNone(ds, OfKind(ChangesRequested));
    hide SinceUnblock;
  }

  lemma MayDelete(c: Card, now: int, at: Moment)
    requires InOrder(c, now) && now < at.clock.now && at.main.None? && FactsAt(c).runs == []
    requires !IsRejected(c.decisions) && Deletion(c.decisions).None?
    ensures Allowed(c, Deleting, at)
    ensures Deletion(Next(c, Deleting, at).decisions) == Some(at.clock.now)
  {
    hide DeriveMine, FactsOf, CardFlow, CardBlock, IsRejected, Deletion;
    Shows(c, at);
    RunlessFlow(FactsAt(c), c.decisions, at.clock, at.timeout);
    DeletedLast(c.decisions, DecisionFrom(c, Deleting, at));
  }

  const Deleting: Act := Decide(Delete, None, None, false)

  lemma DeletedLast(ds: seq<Decision>, d: Decision)
    requires Sorted(ds, DecisionTs) && d.kind.Deleted? && forall i | 0 <= i < |ds| :: ds[i].ts <= d.ts
    ensures Deletion(ds + [d]) == Some(d.ts)
  {
    FilterSnoc(ds, d, IsDeletion);
    LatestInOrder(ds + [d], IsDeletion);
  }

  /** A new card on the board, restored if it was born deleted. */
  lemma Restores(sha: string -> string, id: Id, c: Card, now: int, day: Calendar, timeout: int) returns (d: Card, later: int)
    requires OnBoard(sha, id, c, now) && Born(c, now) && c.id == id && Worn(c.decisions) && c.fields.deadline.None?
    requires Unnamed(c.decisions, c.events[1].hash)
    ensures OnBoard(sha, id, d, later) && Free(d, later) && d.id == id && d.events == c.events && FactsAt(d).runs == []
    ensures Worn(d.decisions) && |Returns(d.decisions)| == |Returns(c.decisions)|
    ensures OwnReturns(d) == []
    ensures forall h | Unnamed(c.decisions, h) :: Unnamed(d.decisions, h)
    ensures FactsAt(d).brief.hash == Some(c.events[1].hash)
  {
    hide Allowed, FactsOf, IsRejected, Deletion, HeldByRecord, UnblockCount, LandingBlock, Filter;
    BornInOrder(c, now);
    BornHasNone(c, now);
    BornShows(c, now);
    NoneOwn(c, now);
    WornMeans(c.decisions);
    d, later := c, now;
    if Deletion(c.decisions).Some? {
      var at := On(now + 1, day, timeout);
      MayRestore(c, now, MomentFor(id, at));
      BoardDecides(sha, id, c, now, Restore, None, at);
      QuietDecision(c, now, DecisionFrom(c, Restoring, MomentFor(id, at)));
      FilterSnoc(c.decisions, DecisionFrom(c, Restoring, MomentFor(id, at)), OfKind(BriefReturned));
      d, later := Next(c, Restoring, MomentFor(id, at)), at.clock.now;
    }
    WornMeans(d.decisions);
    OnlyTheRecordBlocks(d, later);
  }

  function Returns(ds: seq<Decision>): seq<Decision> {
    Filter(ds, OfKind(BriefReturned))
  }

  lemma BornShows(c: Card, start: int)
    requires Born(c, start) && Unnamed(c.decisions, c.events[1].hash)
    ensures FactsAt(c).brief.hash == Some(c.events[1].hash)
  {
    hide BriefOrdered;
    BornInOrder(c, start);
    FactsInOrder(c, start);
    NewBrief([c.events[0]], c.events[1], c.decisions);
    assert [c.events[0]] + [c.events[1]] == c.events;
  }

  lemma NoneOwn(c: Card, start: int)
    requires Born(c, start) && Unnamed(c.decisions, c.events[1].hash)
    ensures OwnReturns(c) == [] && RecordedBy(c.events) == {c.events[1].hash}
  {
    BornHasNoRuns(c, start);
    assert RecordedBy(c.events) == {c.events[1].hash};
    forall d <- c.decisions ensures !ReturnOf(RecordedBy(c.events))(d) {
      var i :| 0 <= i < |c.decisions| && c.decisions[i] == d;
    }
    FilterNone(c.decisions, ReturnOf(RecordedBy(c.events)));
  }

  /** Its text is returned, a second one written and returned, and the card deleted. */
  lemma TwiceReturned(sha: string -> string, id: Id, c: Card, now: int, h: Hash, text: string, day: Calendar, timeout: int)
    returns (d: Card, later: int)
    requires OnBoard(sha, id, c, now) && Free(c, now) && c.id == id && FactsAt(c).runs == [] && OwnReturns(c) == []
    requires FactsAt(c).brief.hash == Some(h) && Unnamed(c.decisions, h) && Worn(c.decisions)
    requires TextOk(text) && h != TextHash(sha, text) && Unused(c, TextHash(sha, text))
    ensures OnBoard(sha, id, d, later) && d.id == id && InOrder(d, later) && FactsAt(d).runs == []
    ensures Worn(d.decisions) && Deletion(d.decisions).None?
    ensures |Returns(d.decisions)| == |Returns(c.decisions)| + 2
    ensures forall other | other != h && other != TextHash(sha, text) && Unnamed(c.decisions, other) :: Unnamed(d.decisions, other)
  {
    hide Allowed, FactsOf, IsRejected, Deletion, LandingBlock, Filter, TextHash, TextOk, UnblockCount, CardFlow, Free, OwnReturns,
      ForeignReturns, RecordedBy, Worn, InOrder;
    var h' := TextHash(sha, text);
    var at, at', at'' := On(now + 1, day, timeout), On(now + 2, day, timeout), On(now + 3, day, timeout);
    MayReturn(c, now, h, MomentFor(id, at));
    BoardDecides(sha, id, c, now, ReturnBrief, Some(h), at);
    var r := Next(c, Returning(h), MomentFor(id, at));
    ReturnMore(c.decisions, Decision(now + 1, BriefReturned, id, Some(h), None));
    RunlessFlow(FactsAt(r), r.decisions, at'.clock, timeout);
    MayWrite(r, now + 1, h', MomentFor(id, at'));
    BoardWrites(sha, id, r, now + 1, text, at');
    var e := Next(r, Writing(h'), MomentFor(id, at'));
    MayReturn(e, now + 2, h', MomentFor(id, at''));
    BoardDecides(sha, id, e, now + 2, ReturnBrief, Some(h'), at'');
    ReturnMore(e.decisions, Decision(now + 3, BriefReturned, id, Some(h'), None));
    d, later := Next(e, Returning(h'), MomentFor(id, at'')), now + 3;
    FreeNotDeleted(c, now);
  }

  lemma FreeNotDeleted(c: Card, now: int)
    requires Free(c, now)
    ensures Deletion(c.decisions).None? && InOrder(c, now)
  {
  }

  lemma ReturnMore(ds: seq<Decision>, d: Decision)
    requires d.kind.BriefReturned?
    ensures |Returns(ds + [d])| == |Returns(ds)| + 1
    ensures Worn(ds) ==> Worn(ds + [d])
    ensures Deletion(ds + [d]) == Deletion(ds)
    ensures forall h | d.briefHash != Some(h) && Unnamed(ds, h) :: Unnamed(ds + [d], h)
  {
    FilterSnoc(ds, d, OfKind(BriefReturned));
    OtherKeepsFate(ds, d);
  }

  /** One life of the id: created, returned twice, deleted, trashed, purged. */
  lemma WornLife(sha: string -> string, id: Id, ds: seq<Decision>, now: int, fields: Fields, a: string, b: string,
                 day: Calendar, timeout: int) returns (ds': seq<Decision>, later: int)
    requires OffBoard(sha, id, ds, now) && StreamInOrder(ds, now) && Worn(ds)
    requires id !in ReservedIds && fields.deadline.None? && TextOk(a) && TextOk(b) && TextHash(sha, a) != TextHash(sha, b)
    requires Unnamed(ds, TextHash(sha, a)) && Unnamed(ds, TextHash(sha, b))
    ensures OffBoard(sha, id, ds', later) && StreamInOrder(ds', later) && Worn(ds') && Deletion(ds').Some?
    ensures |Returns(ds')| == |Returns(ds)| + 2
    ensures forall h | h != TextHash(sha, a) && h != TextHash(sha, b) && Unnamed(ds, h) :: Unnamed(ds', h)
  {
    hide Allowed, FactsOf, IsRejected, Deletion, Filter, TextHash, TextOk, Free, OnBoard, OffBoard, Worn, Unnamed, UnblockCount,
      HeldByRecord, Born, RecordedBy, OwnReturns;
    var at := On(now + 1, day, timeout);
    var c := BoardCreates(sha, id, ds, now, fields, a, at);
    NoneOwn(c, now + 1);
    var r, n := Restores(sha, id, c, now + 1, day, timeout);
    var d, m := TwiceReturned(sha, id, r, n, TextHash(sha, a), b, day, timeout);
    WornMeans(d.decisions);
    var at' := On(m + 1, day, timeout);
    MayDelete(d, m, MomentFor(id, at'));
    BoardDecides(sha, id, d, m, Delete, None, at');
    DeleteMore(d.decisions, DecisionFrom(d, Deleting, MomentFor(id, at')));
    var gone := Next(d, Deleting, MomentFor(id, at'));
    later := m + 2 + TRASH_SECONDS;
    BoardPurges(sha, id, gone, m + 1, On(m + 2, day, timeout), On(later, day, timeout));
    ds' := gone.decisions;
  }

  lemma DeleteMore(ds: seq<Decision>, d: Decision)
    requires d.kind.Deleted? && d.briefHash.None?
    ensures |Returns(ds + [d])| == |Returns(ds)|
    ensures Worn(ds) ==> Worn(ds + [d])
    ensures forall h | Unnamed(ds, h) :: Unnamed(ds + [d], h)
  {
    FilterSnoc(ds, d, OfKind(BriefReturned));
  }

  /** Texts that may be stored and hash to different names. */
  ghost predicate Texts(sha: string -> string, texts: seq<string>) {
    && (forall i | 0 <= i < |texts| :: TextOk(texts[i]))
    && (forall i, j | 0 <= i < j < |texts| :: TextHash(sha, texts[i]) != TextHash(sha, texts[j]))
  }

  lemma {:induction false} WornLives(sha: string -> string, id: Id, fields: Fields, texts: seq<string>, n: nat,
                                     day: Calendar, timeout: int) returns (ds: seq<Decision>, now: int)
    requires Texts(sha, texts) && 2 * n <= |texts| && id !in ReservedIds && fields.deadline.None?
    ensures OffBoard(sha, id, ds, now) && StreamInOrder(ds, now) && Worn(ds) && |Returns(ds)| == 2 * n
    ensures n > 0 ==> Deletion(ds).Some?
    ensures forall i | 2 * n <= i < |texts| :: Unnamed(ds, TextHash(sha, texts[i]))
  {
    hide OffBoard, TextHash, TextOk, Deletion;
    if n == 0 {
      NothingYet(sha, id);
      ds, now := [], 0;
    } else {
      var before, from := WornLives(sha, id, fields, texts, n - 1, day, timeout);
      ds, now := WornLife(sha, id, before, from, fields, texts[2 * n - 2], texts[2 * n - 1], day, timeout);
    }
  }

  /** No bound holds of all the returns on an id: create, return twice, delete, purge and create again, and
      after n lives the new card stands under 2n returns and not one unblock. */
  lemma ReturnsWithoutBound(sha: string -> string, id: Id, fields: Fields, texts: seq<string>, n: nat, day: Calendar,
                            timeout: int) returns (c: Card, now: int)
    requires Texts(sha, texts) && |texts| == 2 * n + 1 && id !in ReservedIds && fields.deadline.None?
    ensures OnBoard(sha, id, c, now) && Born(c, now)
    ensures |Filter(c.decisions, OfKind(BriefReturned))| == 2 * n && UnblockCount(c.decisions) == 0
  {
    hide OffBoard, OnBoard, TextHash, TextOk, Deletion, UnblockCount, Born;
    var ds, from := WornLives(sha, id, fields, texts, n, day, timeout);
    c := BoardCreates(sha, id, ds, from, fields, texts[2 * n], On(from + 1, day, timeout));
    now := from + 1;
    WornMeans(ds);
  }

  /** Some reachable board would take a card under an id whose earlier deletion is still in force. */
  lemma SomeIdIsRecycled(sha: string -> string, id: Id, fields: Fields, a: string, b: string, c: string, day: Calendar, timeout: int)
    returns (steps: seq<Timed>)
    requires Texts(sha, [a, b, c]) && id !in ReservedIds && fields.deadline.None?
    ensures var w := Play(EmptyBoard, sha, steps);
      BoardRising(0, steps) && CreateOk(w, Create(Dave, id, fields, c)) && DeletedAt(w, id).Some?
  {
    hide TextHash, TextOk, Deletion, Play, BoardRising, Worn, Filter;
    var ds, from := WornLives(sha, id, fields, [a, b, c], 1, day, timeout);
    steps :| RunTo(sha, steps, from) && Lacks(Play(EmptyBoard, sha, steps), id, ds);
    assert TextOk([a, b, c][2]);
  }
}

/** Whole runs of the board: an id is in one place only, every brief text stays on file, and every
    card on a reachable board has lived a card's life, so the per-card theorems hold of it. */
module Lives {
  import opened Seqs
  import opened Text
  import opened Ledger
  import opened Life
  import opened Board
  import opened ResearchRuns
  import opened BriefRuns
  import opened Strikes

  // ---------- the trash ----------

  predicate OnePlace(w: World) {
    w.cards.Keys !! w.trash.Keys
  }

  lemma OnePlaceKept(w: World, sha: string -> string, v: Verbs, at: Instant)
    requires OnePlace(w)
    ensures OnePlace(Take(w, sha, v, at))
  {
    hide DeriveMine, Allowed, DecideOk;
  }

  /** Across every create, trash, restore and purge an id is never both on the board and in the trash. */
  lemma {:induction false} AlwaysOnePlace(w: World, sha: string -> string, steps: seq<Timed>)
    requires OnePlace(w)
    ensures OnePlace(Play(w, sha, steps))
  {
    hide Take;
    if steps != [] {
      AlwaysOnePlace(w, sha, Init(steps));
      OnePlaceKept(Play(w, sha, Init(steps)), sha, Last(steps).verb, Last(steps).at);
    }
  }

  /** What a deletion in force means: some row deleted the card and no restore is later than it. */
  lemma DeletionMeans(ds: seq<Decision>)
    requires Deletion(ds).Some?
    ensures exists i | 0 <= i < |ds| :: ds[i].kind.Deleted? && ds[i].ts == Deletion(ds).value
    ensures forall i | 0 <= i < |ds| && ds[i].kind.Restored? :: ds[i].ts <= Deletion(ds).value
    ensures forall i | 0 <= i < |ds| && ds[i].kind.Deleted? :: ds[i].ts <= Deletion(ds).value
  {
    hide Filter, Latest;
    var rows := Filter(ds, IsDeletion);
    FilterMembers(ds, IsDeletion);
    NoLatestOfNone();
    LatestMeans(rows);
    var i :| 0 <= i < |rows| && rows[i] == Latest(rows).value;
    assert rows[i] in ds;
  }

  lemma NoLatestOfNone()
    ensures Latest([]).None?
  {
  }

  lemma LatestMeans(rows: seq<Decision>)
    requires rows != []
    ensures Latest(rows).Some? && Latest(rows).value in rows
    ensures forall d <- rows :: d.ts <= Latest(rows).value.ts
  {
    hide Ordered;
    var ordered := Ordered(rows, DecisionTs);
    OrderedMembers(rows, DecisionTs);
    OrderedIsSorted(rows, DecisionTs);
    assert |ordered| == |multiset(ordered)| == |multiset(rows)| == |rows|;
    assert Last(ordered) in multiset(ordered);
    forall d <- rows ensures d.ts <= Last(ordered).ts {
      assert d in multiset(ordered);
      var k :| 0 <= k < |ordered| && ordered[k] == d;
      assert DecisionTs(ordered[k]) <= DecisionTs(ordered[|ordered| - 1]);
    }
  }

  /** A purged card's latest deletion is at least thirty days old, with no later restore. */
  lemma PurgedWasLongDeleted(w: World, sha: string -> string, id: Id, at: Instant)
    requires Take(w, sha, Purge(id), at) != w
    ensures id in w.trash && id !in Take(w, sha, Purge(id), at).trash
    ensures exists i | 0 <= i < |w.decisions| ::
      && w.decisions[i].card == id && w.decisions[i].kind.Deleted?
      && w.decisions[i].ts + TRASH_SECONDS <= at.clock.now
      && forall j | 0 <= j < |w.decisions| && w.decisions[j].card == id && w.decisions[j].kind.Restored? ::
           w.decisions[j].ts <= w.decisions[i].ts
  {
    var mine := Filter(w.decisions, OfCard(id));
    DeletionMeans(mine);
    FilterMembers(w.decisions, OfCard(id));
    var k :| 0 <= k < |mine| && mine[k].kind.Deleted? && mine[k].ts == Deletion(mine).value;
    assert mine[k] in w.decisions && OfCard(id)(mine[k]);
    var i :| 0 <= i < |w.decisions| && w.decisions[i] == mine[k];
    forall j | 0 <= j < |w.decisions| && w.decisions[j].card == id && w.decisions[j].kind.Restored?
      ensures w.decisions[j].ts <= w.decisions[i].ts
    {
      assert w.decisions[j] in mine;
      var l :| 0 <= l < |mine| && mine[l] == w.decisions[j];
    }
  }

  /** Purging forgets the card but not its decisions: a card created under an id is shown deleted
      from birth exactly when an earlier life of that id left a deletion in force. */
  lemma BornDeletedExactlyWhenRecycled(w: World, sha: string -> string, v: Verbs, at: Instant, later: Instant)
    requires v.Create? && CreateOk(w, v)
    ensures var w' := Take(w, sha, v, at);
            v.id in w'.cards
            && (ViewOf(w', v.id, later).deleted <==> DeletedAt(w, v.id).Some?)
            && (DeletedAt(w, v.id).Some? ==> ViewOf(w', v.id, later).wants.wants.None?)
  {
    ShownDeletion(CardIn(v.id, NewDir(sha, v, at.clock.now), Take(w, sha, v, at)), MomentFor(v.id, later));
  }

  lemma ShownDeletion(c: Card, at: Moment)
    ensures Shown(c, at).deleted <==> Deletion(c.decisions).Some?
    ensures Shown(c, at).deleted ==> Shown(c, at).wants.wants.None?
  {
  }

  // ---------- brief texts ----------

  /** Every brief recorded is on file under its hash, with text that still hashes to it. */
  ghost predicate BriefsOnFile(sha: string -> string, dir: Dir) {
    forall i | 0 <= i < |dir.events| && dir.events[i].BriefEvent? ::
      dir.events[i].hash in dir.texts && TextHash(sha, dir.texts[dir.events[i].hash]) == dir.events[i].hash
  }

  ghost predicate AllOnFile(sha: string -> string, w: World) {
    && (forall id | id in w.cards :: BriefsOnFile(sha, w.cards[id]))
    && (forall id | id in w.trash :: BriefsOnFile(sha, w.trash[id]))
  }

  lemma OnFileAppends(sha: string -> string, dir: Dir, e: Event, texts: map<Hash, string>)
    requires BriefsOnFile(sha, dir)
    requires forall h | h in dir.texts && TextHash(sha, dir.texts[h]) == h :: h in texts && TextHash(sha, texts[h]) == h
    requires e.BriefEvent? ==> e.hash in texts && TextHash(sha, texts[e.hash]) == e.hash
    ensures BriefsOnFile(sha, dir.(events := dir.events + [e], texts := texts))
  {
    hide TextHash;
  }

  lemma OnFileCreated(sha: string -> string, v: Verbs, now: int)
    requires v.Create?
    ensures BriefsOnFile(sha, NewDir(sha, v, now))
  {
    StoredTextRehashes(sha, v.text);
  }

  lemma ActedOnFile(w: World, sha: string -> string, v: Verbs, at: Instant)
    requires ActOf(sha, w, v, at).Some? && v.id in w.cards && BriefsOnFile(sha, w.cards[v.id])
    ensures var dir := w.cards[v.id];
            var e := EventOf(CardIn(v.id, dir, w), ActOf(sha, w, v, at).value, MomentFor(v.id, at));
            BriefsOnFile(sha, dir.(events := dir.events + [e], texts := FilesAfter(sha, dir.texts, v)))
  {
    hide DeriveMine, BriefsOnFile, Filter;
    var dir := w.cards[v.id];
    var e := EventOf(CardIn(v.id, dir, w), ActOf(sha, w, v, at).value, MomentFor(v.id, at));
    if v.AddBrief? {
      StoredTextRehashes(sha, v.text);
    }
    OnFileAppends(sha, dir, e, FilesAfter(sha, dir.texts, v));
  }

  lemma OnFileKept(w: World, sha: string -> string, v: Verbs, at: Instant)
    requires AllOnFile(sha, w)
    ensures AllOnFile(sha, Take(w, sha, v, at))
  {
    hide DeriveMine, Allowed, BriefsOnFile, DecideOk, Filter, EventOf, FilesAfter;
    if v.Create? {
      OnFileCreated(sha, v, at.clock.now);
    } else if Take(w, sha, v, at) != w && (v.AddBrief? || v.AddNote? || v.HoldIt? || v.EditIt? || v.PickIt?) {
      ActedOnFile(w, sha, v, at);
    }
  }

  lemma {:induction false} AlwaysOnFile(sha: string -> string, steps: seq<Timed>)
    ensures AllOnFile(sha, Play(EmptyBoard, sha, steps))
  {
    hide Take, BriefsOnFile;
    if steps != [] {
      AlwaysOnFile(sha, Init(steps));
      OnFileKept(Play(EmptyBoard, sha, Init(steps)), sha, Last(steps).verb, Last(steps).at);
    }
  }

  /** On a reachable board the brief a card shows always reads back under its hash: `pick` never
      meets a hash mismatch. */
  lemma BriefAlwaysReads(sha: string -> string, steps: seq<Timed>, id: Id)
    requires id in Play(EmptyBoard, sha, steps).cards
    ensures var w := Play(EmptyBoard, sha, steps);
            BriefReads(sha, w.cards[id], Brief(w.cards[id].events, Filter(w.decisions, OfCard(id))).hash)
  {
    hide Play, TextHash;
    AlwaysOnFile(sha, steps);
    var w := Play(EmptyBoard, sha, steps);
    var dir, ds := w.cards[id], Filter(w.decisions, OfCard(id));
    if Brief(dir.events, ds).hash.Some? {
      ShownBriefIsAnEvent(dir.events, ds);
    }
  }

  lemma ShownBriefIsAnEvent(events: seq<Event>, ds: seq<Decision>)
    requires Brief(events, ds).hash.Some?
    ensures exists i | 0 <= i < |events| :: events[i].BriefEvent? && events[i].hash == Brief(events, ds).hash.value
  {
    var ordered := Ordered(events, EventTs);
    FilterMembers(ordered, IsBrief);
    OrderedMembers(events, EventTs);
    var last := Last(Filter(ordered, IsBrief));
    assert last in multiset(ordered);
    assert last in events;
  }

  // ---------- every card has lived a card's life ----------

  /** The card is the outcome of a life from a creation under a record that is fair; `paced` says that
      each run's receipt landed before the card's next pick. */
  ghost predicate LivedFrom(c: Card, now: int, paced: bool, birth: Card, start: int, steps: seq<Step>) {
    && Born(birth, start) && FairRecord(birth.decisions) && Rising(start, steps)
    && EndOf(start, steps) <= now && c == Exec(birth, steps) && (paced ==> PacedRun(birth, steps))
  }

  ghost predicate Lived(c: Card, now: int, paced: bool) {
    exists birth: Card, start: int, steps: seq<Step> :: LivedFrom(c, now, paced, birth, start, steps)
  }

  lemma LivedOn(c: Card, s: Step, now: int, paced: bool)
    requires Lived(c, now, paced) && now < s.at.clock.now && (paced ==> PacedStep(c, s))
    ensures Lived(Perform(c, s), s.at.clock.now, paced)
  {
    hide Perform, Born, FairRecord, PacedStep;
    var birth, start, steps :| LivedFrom(c, now, paced, birth, start, steps);
    SnocParts(steps, s);
    assert Exec(birth, steps + [s]) == Perform(c, s);
    RisingSnoc(start, steps, s);
    assert LivedFrom(Perform(c, s), s.at.clock.now, paced, birth, start, steps + [s]);
  }

  lemma LivedLater(c: Card, now: int, later: int, paced: bool)
    requires Lived(c, now, paced) && now <= later
    ensures Lived(c, later, paced)
  {
    hide Exec, Born, FairRecord, PacedRun;
    var birth, start, steps :| LivedFrom(c, now, paced, birth, start, steps);
    assert LivedFrom(c, later, paced, birth, start, steps);
  }

  /** The record a card leaves is as fair as the one it began under. */
  lemma LivedLeavesFair(c: Card, now: int, paced: bool)
    requires Lived(c, now, paced)
    ensures FairRecord(c.decisions)
  {
    hide Exec, Born, FairRecord, PacedRun;
    var birth, start, steps :| LivedFrom(c, now, paced, birth, start, steps);
    VerdictsAlways(birth, start, steps);
  }

  /** Either nothing happened to the card, or one act of its life did; `picks` says it may be a pick. */
  ghost predicate OneStep(c: Card, c': Card, at: Moment, picks: bool) {
    c' == c || exists act: Act :: c' == Perform(c, Step(act, at)) && (act.PickCard? ==> picks)
  }

  lemma LivedStep(c: Card, c': Card, at: Moment, now: int, picks: bool, paced: bool)
    requires OneStep(c, c', at, picks) && Lived(c, now, paced) && now < at.clock.now
    requires picks && paced ==> !Pending(RunsIn(c.events, c.receipts))
    ensures Lived(c', at.clock.now, paced)
  {
    hide Perform, Lived;
    if c' == c {
      LivedLater(c, now, at.clock.now, paced);
    } else {
      var act :| c' == Perform(c, Step(act, at)) && (act.PickCard? ==> picks);
      LivedOn(c, Step(act, at), now, paced);
    }
  }

  function PlaceOf(w: World, id: Id): Option<Dir> {
    if id in w.cards then Some(w.cards[id]) else if id in w.trash then Some(w.trash[id]) else None
  }

  lemma DecisionsOfOthers(ds: seq<Decision>, d: Decision, id: Id)
    ensures Filter(ds + [d], OfCard(id)) == if d.card == id then Filter(ds, OfCard(id)) + [d] else Filter(ds, OfCard(id))
  {
    FilterSnoc(ds, d, OfCard(id));
  }

  lemma DecidedIsAStep(w: World, sha: string -> string, v: Verbs, at: Instant, id: Id)
    requires OnePlace(w) && v.DecideIt? && PlaceOf(w, id).Some?
    ensures var w' := Take(w, sha, v, at);
            PlaceOf(w', id) == PlaceOf(w, id)
            && OneStep(CardIn(id, PlaceOf(w, id).value, w), CardIn(id, PlaceOf(w, id).value, w'), MomentFor(id, at), false)
  {
    hide DeriveMine, Filter;
    if DecideOk(w, sha, v, at) {
      var c := CardIn(id, PlaceOf(w, id).value, w);
      var act := Decide(v.verb, v.briefHash, Some(v.rendered), id in w.trash);
      assert v.id == id ==> Allowed(c, act, MomentFor(id, at));
      hide Allowed, DecideOk;
      DecisionsOfOthers(w.decisions, DecisionIn(v, at.clock.now), id);
      if v.id == id {
        assert DecisionFrom(c, act, MomentFor(id, at)) == DecisionIn(v, at.clock.now);
        assert CardIn(id, PlaceOf(w, id).value, Take(w, sha, v, at)) == Perform(c, Step(act, MomentFor(id, at)));
      }
    }
  }

  lemma LandedIsAStep(w: World, sha: string -> string, v: Verbs, at: Instant, id: Id)
    requires v.Land? && PlaceOf(w, id).Some?
    ensures var w' := Take(w, sha, v, at);
            PlaceOf(w', id) == PlaceOf(w, id)
            && OneStep(CardIn(id, PlaceOf(w, id).value, w), CardIn(id, PlaceOf(w, id).value, w'), MomentFor(id, at), false)
  {
    if Settles(w.receipts, v.receipts) {
      var c := CardIn(id, PlaceOf(w, id).value, w);
      assert CardIn(id, PlaceOf(w, id).value, Take(w, sha, v, at)) == Perform(c, Step(Settle(v.receipts), MomentFor(id, at)));
    }
  }

  predicate Writes(v: Verbs) {
    v.AddBrief? || v.AddNote? || v.HoldIt? || v.EditIt? || v.PickIt?
  }

  lemma WrittenIsAStep(w: World, sha: string -> string, v: Verbs, at: Instant, id: Id)
    requires OnePlace(w) && Writes(v) && PlaceOf(w, id).Some?
    ensures var w' := Take(w, sha, v, at);
            PlaceOf(w', id).Some?
            && OneStep(CardIn(id, PlaceOf(w, id).value, w), CardIn(id, PlaceOf(w', id).value, w'), MomentFor(id, at), v.PickIt? && v.id == id)
  {
    hide DeriveMine, Allowed;
    var act := ActOf(sha, w, v, at);
    if act.Some? && v.id == id {
      var c := CardIn(id, w.cards[id], w);
      if Allowed(c, act.value, MomentFor(id, at)) {
        assert CardIn(id, PlaceOf(Take(w, sha, v, at), id).value, Take(w, sha, v, at))
            == Perform(c, Step(act.value, MomentFor(id, at)));
      }
    }
  }

  lemma MovedIsNoStep(w: World, sha: string -> string, v: Verbs, at: Instant, id: Id)
    requires OnePlace(w) && (v.Trash? || v.RestoreIt? || v.Purge? || v.Create?)
    ensures var w' := Take(w, sha, v, at);
            && w'.decisions == w.decisions && w'.receipts == w.receipts
            && (PlaceOf(w', id) == PlaceOf(w, id)
                || (v.Purge? && PlaceOf(w', id).None?)
                || (v.Create? && CreateOk(w, v) && v.id == id && PlaceOf(w', id) == Some(NewDir(sha, v, at.clock.now))))
  {
    hide DeriveMine, DecideOk, Deletion;
  }

  // ---------- the decision stream, across lives ----------

  /** The stream stands in time order, none of it in the future. */
  ghost predicate StreamInOrder(ds: seq<Decision>, now: int) {
    Sorted(ds, DecisionTs) && forall i | 0 <= i < |ds| :: ds[i].ts <= now
  }

  lemma PartInOrder(ds: seq<Decision>, now: int, id: Id)
    requires StreamInOrder(ds, now)
    ensures StreamInOrder(Filter(ds, OfCard(id)), now)
  {
    FilterSorted(ds, DecisionTs, OfCard(id));
    FilterMembers(ds, OfCard(id));
  }

  lemma StreamKept(w: World, sha: string -> string, v: Verbs, at: Instant, now: int)
    requires StreamInOrder(w.decisions, now) && now <= at.clock.now
    ensures StreamInOrder(Take(w, sha, v, at).decisions, at.clock.now)
  {
    hide DecideOk, Allowed, DeriveMine, ActOf, CreateOk;
  }

  /** What the board keeps of one id: its record is fair, and its card, if there is one, has lived. */
  ghost predicate IdFair(w: World, id: Id, now: int, paced: bool) {
    && FairRecord(Filter(w.decisions, OfCard(id)))
    && (PlaceOf(w, id).Some? ==> Lived(CardIn(id, PlaceOf(w, id).value, w), now, paced))
  }

  lemma CreatedIsBorn(w: World, sha: string -> string, v: Verbs, at: Instant, now: int, paced: bool)
    requires v.Create? && CreateOk(w, v) && IdFair(w, v.id, now, paced)
    requires StreamInOrder(w.decisions, now) && now <= at.clock.now
    ensures Lived(CardIn(v.id, NewDir(sha, v, at.clock.now), Take(w, sha, v, at)), at.clock.now, paced)
  {
    hide FairRecord;
    var c := CardIn(v.id, NewDir(sha, v, at.clock.now), Take(w, sha, v, at));
    var none: seq<Step> := [];
    PartInOrder(w.decisions, now, v.id);
    assert c == Exec(c, none);
    assert LivedFrom(c, at.clock.now, paced, c, at.clock.now, none);
  }

  /** The verb picks no run for `id` while an earlier one is still out. */
  ghost predicate PacedVerb(w: World, v: Verbs, id: Id) {
    v.PickIt? && v.id == id && PlaceOf(w, id).Some? ==>
      !Pending(RunsIn(PlaceOf(w, id).value.events, w.receipts))
  }

  ghost predicate BoardPaced(sha: string -> string, steps: seq<Timed>, id: Id) {
    steps == []
    || (BoardPaced(sha, Init(steps), id) && PacedVerb(Play(EmptyBoard, sha, Init(steps)), Last(steps).verb, id))
  }

  lemma ActedKept(w: World, sha: string -> string, v: Verbs, at: Instant, id: Id, now: int, paced: bool)
    requires v.DecideIt? || v.Land? || Writes(v)
    requires OnePlace(w) && IdFair(w, id, now, paced) && now < at.clock.now && (paced ==> PacedVerb(w, v, id))
    ensures IdFair(Take(w, sha, v, at), id, at.clock.now, paced)
  {
    hide Take, Lived, OneStep, FairRecord;
    var w' := Take(w, sha, v, at);
    if PlaceOf(w, id).Some? {
      if v.DecideIt? {
        DecidedIsAStep(w, sha, v, at, id);
      } else if v.Land? {
        LandedIsAStep(w, sha, v, at, id);
      } else {
        WrittenIsAStep(w, sha, v, at, id);
      }
      var c, c' := CardIn(id, PlaceOf(w, id).value, w), CardIn(id, PlaceOf(w', id).value, w');
      LivedStep(c, c', MomentFor(id, at), now, v.PickIt? && v.id == id, paced);
      LivedLeavesFair(c', at.clock.now, paced);
    } else {
      NothingAppears(w, sha, v, at, id);
    }
  }

  lemma MovedKept(w: World, sha: string -> string, v: Verbs, at: Instant, id: Id, now: int, paced: bool)
    requires v.Trash? || v.RestoreIt? || v.Purge? || v.Create?
    requires OnePlace(w) && IdFair(w, id, now, paced) && now < at.clock.now && StreamInOrder(w.decisions, now)
    ensures IdFair(Take(w, sha, v, at), id, at.clock.now, paced)
  {
    hide Take, Lived, FairRecord, CreateOk;
    var w' := Take(w, sha, v, at);
    MovedIsNoStep(w, sha, v, at, id);
    if PlaceOf(w', id).Some? {
      if v.Create? && CreateOk(w, v) && v.id == id {
        CreatedIsBorn(w, sha, v, at, now, paced);
        CreatedIsPlaced(w, sha, v, at);
      } else {
        LivedLater(CardIn(id, PlaceOf(w, id).value, w), now, at.clock.now, paced);
      }
    }
  }

  lemma CreatedIsPlaced(w: World, sha: string -> string, v: Verbs, at: Instant)
    requires v.Create? && CreateOk(w, v)
    ensures PlaceOf(Take(w, sha, v, at), v.id) == Some(NewDir(sha, v, at.clock.now))
  {
  }

  lemma NothingAppears(w: World, sha: string -> string, v: Verbs, at: Instant, id: Id)
    requires v.DecideIt? || v.Land? || Writes(v)
    requires PlaceOf(w, id).None?
    ensures PlaceOf(Take(w, sha, v, at), id).None?
    ensures Filter(Take(w, sha, v, at).decisions, OfCard(id)) == Filter(w.decisions, OfCard(id))
  {
    hide DeriveMine, Allowed, Filter, GateAccepts;
    if v.DecideIt? {
      DecisionsOfOthers(w.decisions, DecisionIn(v, at.clock.now), id);
    }
  }

  /** The board's clock moves between any two verbs. */
  ghost predicate BoardRising(start: int, steps: seq<Timed>) {
    && (forall i | 0 <= i < |steps| :: start < steps[i].at.clock.now)
    && (forall i, j | 0 <= i < j < |steps| :: steps[i].at.clock.now < steps[j].at.clock.now)
  }

  function BoardEnd(start: int, steps: seq<Timed>): int {
    if steps == [] then start else Last(steps).at.clock.now
  }

  lemma {:induction false} StreamAlways(sha: string -> string, start: int, steps: seq<Timed>)
    requires BoardRising(start, steps)
    ensures StreamInOrder(Play(EmptyBoard, sha, steps).decisions, BoardEnd(start, steps))
  {
    hide Take, StreamInOrder;
    if steps == [] {
      NothingDecided(start);
    } else {
      StreamAlways(sha, start, Init(steps));
      StreamKept(Play(EmptyBoard, sha, Init(steps)), sha, Last(steps).verb, Last(steps).at, BoardEnd(start, Init(steps)));
    }
  }

  lemma NothingDecided(now: int)
    ensures StreamInOrder([], now) && FairRecord([])
  {
  }

  /** Every card on or off a reachable board is the outcome of a card's life under a rising clock, and
      every id's record is fair, whatever cards bore the id before. */
  lemma {:induction false} EveryCardHasLived(sha: string -> string, start: int, steps: seq<Timed>, id: Id, paced: bool)
    requires BoardRising(start, steps) && (paced ==> BoardPaced(sha, steps, id))
    ensures IdFair(Play(EmptyBoard, sha, steps), id, BoardEnd(start, steps), paced)
  {
    hide Take, Lived, FairRecord, PacedVerb;
    if steps == [] {
      NothingDecided(start);
    } else {
      var before, v, at := Play(EmptyBoard, sha, Init(steps)), Last(steps).verb, Last(steps).at;
      var now := BoardEnd(start, Init(steps));
      EveryCardHasLived(sha, start, Init(steps), id, paced);
      AlwaysOnePlace(EmptyBoard, sha, Init(steps));
      StreamAlways(sha, start, Init(steps));
      if v.DecideIt? || v.Land? || Writes(v) {
        ActedKept(before, sha, v, at, id, now, paced);
      } else {
        MovedKept(before, sha, v, at, id, now, paced);
      }
    }
  }

  lemma LifeInOrder(birth: Card, from: int, life: seq<Step>, now: int)
    requires Born(birth, from) && Rising(from, life) && EndOf(from, life) <= now
    ensures InOrder(Exec(birth, life), now)
  {
    hide Exec;
    BornInOrder(birth, from);
    RisingNeverBack(from, life);
    ReachableInOrder(birth, from, life);
  }

  /** The per-card theorems, on the board: for every card of every reachable board, whatever cards bore
      its id before, strikes are conserved, brief runs are paid for, at most the newest research run is
      open, every research run answers an approved brief, and ledger and decisions stand in time order.
      Declined runs are conserved too when each receipt lands before the card's next pick. */
  lemma BoardTheorem(sha: string -> string, start: int, steps: seq<Timed>, id: Id)
    requires BoardRising(start, steps)
    requires PlaceOf(Play(EmptyBoard, sha, steps), id).Some?
    ensures var w := Play(EmptyBoard, sha, steps);
            var c := CardIn(id, PlaceOf(w, id).value, w);
            && |OwnReturns(c)| <= 2 + UnblockCount(c.decisions)
            && |Filter(c.decisions, OfKind(ChangesRequested))| <= 2 + UnblockCount(c.decisions)
            && c.events != []
            && |Filter(Runs(c.events, c.receipts), IsLiveBriefRun)|
               <= |Filter(HumanInputs(c.events, c.decisions), NotBefore(c.events[0].ts))|
            && OnlyNewestOpen(RunsIn(c.events, c.receipts))
            && AllAnswerApproved(c)
            && InOrder(c, BoardEnd(start, steps))
            && (BoardPaced(sha, steps, id) ==>
                  |Filter(Runs(c.events, c.receipts), IsDecline)| <= 2 + UnblockCount(c.decisions))
  {
    hide Play, Exec, AllAnswerApproved, OnlyNewestOpen, Runs, HumanInputs, UnblockCount, OwnReturns, FairRecord, PacedRun, BoardPaced,
      Born, Rising, NeverBack, InOrder;
    EveryCardHasLived(sha, start, steps, id, false);
    var w := Play(EmptyBoard, sha, steps);
    var c := CardIn(id, PlaceOf(w, id).value, w);
    var birth, from, life :| LivedFrom(c, BoardEnd(start, steps), false, birth, from, life);
    RisingNeverBack(from, life);
    LifeInOrder(birth, from, life, BoardEnd(start, steps));
    ReturnsAndChangesAreConserved(birth, from, life);
    BriefRunsPaidByInputs(birth, from, life);
    OnlyNewestOpenAlways(birth, from, life);
    EveryResearchRunAnswersApprovedBrief(birth, from, life);
    if BoardPaced(sha, steps, id) {
      EveryCardHasLived(sha, start, steps, id, true);
      var birth', from', life' :| LivedFrom(c, BoardEnd(start, steps), true, birth', from', life');
      DeclinesAreConserved(birth', from', life');
    }
  }
}

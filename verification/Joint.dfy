/** The board and the reactor together: people's verbs, units that end by themselves, and passes that
    observe the board, plan and apply, in any order.  A card started or failed too often is held by the next pass
    that considers it, and no later pass starts it until an unblock. */
module Joint {
  import opened Seqs
  import opened Ledger
  import opened Life
  import opened Board
  import opened Lives
  import opened Plan
  import opened Quarantine
  import opened Reactor
  import opened Source
  import PlanProps

  datatype Setup = Setup(sha: string -> string, config: Config, maxRuns: nat, dailyCap: nat)

  /** `tries` are the starts tried for each card since its count was last reset. */
  datatype State = State(w: World, active: set<Unit>, cards: Memory, log: seq<StartRecord>, tries: Tries, clock: int)

  /** `st` is what the pass observes, in whatever order the source lists it. */
  datatype Move =
    | ByHand(verb: Verbs, at: Instant)
    | UnitEnds(unit: Unit)
    | Passes(st: BoardState, at: Instant, replies: int -> Reply, exits: int -> set<Unit>)

  function TickOf(at: Instant): Tick {
    Tick(at.clock.now, at.clock.today, at.clock.now)
  }

  ghost predicate Legal(s: State, m: Move) {
    && (!m.UnitEnds? ==> s.clock < m.at.clock.now)
    && (m.Passes? ==> ObservedFrom(m.st, s.w, s.cards, s.active, m.at))
  }

  ghost function StartOfPass(s: State, m: Move): Effects
    requires m.Passes?
  {
    Effects(s.active, m.st.memory, s.log, None)
  }

  ghost function PlanFor(s: State, m: Move, c: Setup): PlanResult
    requires m.Passes?
  {
    PlanOf(m.st, m.at.clock.now, Spendable(StartOfPass(s, m), TickOf(m.at), c.maxRuns, c.dailyCap), c.config)
  }

  /** What one applied action does to the board: a failed one may still have taken effect. */
  ghost function BoardStep(w: World, sha: string -> string, a: Action, reply: Reply, at: Instant): World {
    if a.Start? || a.Stop? || !(reply.outcome.Ok? || reply.took) then w else Board.Take(w, sha, VerbOf(a), at)
  }

  ghost function BoardAfter(w: World, sha: string -> string, actions: seq<Action>, replies: int -> Reply, at: Instant, n: nat): World
    requires n <= |actions|
  {
    if n == 0 then w
    else BoardStep(BoardAfter(w, sha, actions, replies, at, n - 1), sha, actions[n - 1], replies(n - 1), at)
  }

  function TryOn(tries: Tries, id: Id, now: int): Tries {
    (x: Id) => if x == id then tries(id) + [now] else tries(x)
  }

  function TriesAfter(tries: Tries, actions: seq<Action>, now: int, n: nat): Tries
    requires n <= |actions|
  {
    if n == 0 then tries
    else
      var before := TriesAfter(tries, actions, now, n - 1);
      if actions[n - 1].Start? then TryOn(before, actions[n - 1].card, now) else before
  }

  /** A pass applies its plan up to the first permanent error. */
  ghost function Passed(s: State, m: Move, c: Setup): State
    requires m.Passes?
  {
    var actions := PlanFor(s, m, c).actions;
    var n := Applied(actions, m.replies, 0);
    var e := EffectsAfter(StartOfPass(s, m), actions, m.replies, m.exits, TickOf(m.at), n);
    State(BoardAfter(s.w, c.sha, actions, m.replies, m.at, n), e.active, e.cards, e.log,
          TriesAfter(KeptTries(s.tries, s.cards, m.st.views), actions, m.at.clock.now, n), m.at.clock.now)
  }

  ghost function After(s: State, m: Move, c: Setup): State {
    match m
    case ByHand(v, at) => s.(w := Board.Take(s.w, c.sha, v, at), clock := at.clock.now)
    case UnitEnds(u) => s.(active := s.active - {u})
    case Passes(_, _, _, _) => Passed(s, m, c)
  }

  ghost function Course(s: State, moves: seq<Move>, c: Setup): State {
    if moves == [] then s else After(Course(s, Init(moves), c), Last(moves), c)
  }

  ghost predicate AllLegal(s: State, moves: seq<Move>, c: Setup) {
    moves == [] || (AllLegal(s, Init(moves), c) && Legal(Course(s, Init(moves), c), Last(moves)))
  }

  // ---------- what every run keeps ----------

  ghost predicate EventsInOrder(dir: Dir, now: int) {
    Sorted(dir.events, EventTs) && forall i | 0 <= i < |dir.events| :: dir.events[i].ts <= now
  }

  ghost predicate BoardInOrder(w: World, now: int) {
    StreamInOrder(w.decisions, now) && DirsInOrder(w.cards, now) && DirsInOrder(w.trash, now)
  }

  /** An id in one place only, all in time order, and memory that counts the tries. */
  ghost predicate Sound(s: State, c: Setup) {
    && OnePlace(s.w) && BoardInOrder(s.w, s.clock)
    && Counted(s.cards, s.tries, c.config.attempts, s.clock)
  }

  ghost predicate DirsInOrder(dirs: map<Id, Dir>, now: int) {
    forall id | id in dirs :: EventsInOrder(dirs[id], now)
  }

  lemma DirsLater(dirs: map<Id, Dir>, now: int, later: int)
    requires DirsInOrder(dirs, now) && now <= later
    ensures DirsInOrder(dirs, later)
  {
    hide EventsInOrder;
    forall id | id in dirs ensures EventsInOrder(dirs[id], later) {
      LaterInOrder(dirs[id], now, later);
    }
  }

  lemma BoardInOrderKept(w: World, sha: string -> string, v: Verbs, at: Instant, now: int)
    requires BoardInOrder(w, now) && now <= at.clock.now
    ensures BoardInOrder(Board.Take(w, sha, v, at), at.clock.now)
  {
    hide Board.Take, StreamInOrder, EventsInOrder, ActOf;
    StreamKept(w, sha, v, at, now);
    DirsLater(w.cards, now, at.clock.now);
    DirsLater(w.trash, now, at.clock.now);
    if Lives.Writes(v) {
      WrittenInOrder(w, sha, v, at, now);
    } else {
      MovedInOrder(w, sha, v, at);
    }
  }

  lemma MovedInOrder(w: World, sha: string -> string, v: Verbs, at: Instant)
    requires !Lives.Writes(v) && DirsInOrder(w.cards, at.clock.now) && DirsInOrder(w.trash, at.clock.now)
    ensures DirsInOrder(Board.Take(w, sha, v, at).cards, at.clock.now) && DirsInOrder(Board.Take(w, sha, v, at).trash, at.clock.now)
  {
    hide DeriveMine, Allowed, DecideOk, CreateOk, Deletion, EventsInOrder, NewDir, Settles, DecisionIn;
    if v.Create? {
      NewInOrder(sha, v, at.clock.now);
    }
  }

  lemma WrittenInOrder(w: World, sha: string -> string, v: Verbs, at: Instant, now: int)
    requires Lives.Writes(v) && DirsInOrder(w.cards, now) && now <= at.clock.now && DirsInOrder(w.cards, at.clock.now)
    ensures DirsInOrder(Board.Take(w, sha, v, at).cards, at.clock.now) && Board.Take(w, sha, v, at).trash == w.trash
  {
    hide DeriveMine, Allowed, EventsInOrder, EventOf, FilesAfter, Filter;
    if ActOf(sha, w, v, at).Some? {
      var act, card := ActOf(sha, w, v, at).value, CardIn(v.id, w.cards[v.id], w);
      EventStamp(card, act, MomentFor(v.id, at));
      AppendsInOrder(w.cards[v.id], EventOf(card, act, MomentFor(v.id, at)), FilesAfter(sha, w.cards[v.id].texts, v), now, at.clock.now);
    }
  }

  lemma EventStamp(c: Card, act: Act, at: Moment)
    requires !act.Decide? && !act.Settle?
    ensures EventOf(c, act, at).ts == at.clock.now
  {
  }

  lemma LaterInOrder(dir: Dir, now: int, later: int)
    requires EventsInOrder(dir, now) && now <= later
    ensures EventsInOrder(dir, later)
  {
  }

  lemma NewInOrder(sha: string -> string, v: Verbs, now: int)
    requires v.Create?
    ensures EventsInOrder(NewDir(sha, v, now), now)
  {
  }

  lemma AppendsInOrder(dir: Dir, e: Event, texts: map<Hash, string>, now: int, later: int)
    requires EventsInOrder(dir, now) && now <= later && e.ts == later
    ensures EventsInOrder(dir.(events := dir.events + [e], texts := texts), later)
  {
  }

  lemma {:induction false} PassKeepsBoard(w: World, sha: string -> string, actions: seq<Action>, replies: int -> Reply, at: Instant, n: nat, now: int)
    requires n <= |actions| && OnePlace(w) && BoardInOrder(w, now) && now <= at.clock.now
    ensures OnePlace(BoardAfter(w, sha, actions, replies, at, n)) && BoardInOrder(BoardAfter(w, sha, actions, replies, at, n), at.clock.now)
  {
    hide Board.Take, BoardInOrder, OnePlace;
    if n == 0 {
      BoardLater(w, now, at.clock.now);
    } else {
      PassKeepsBoard(w, sha, actions, replies, at, n - 1, now);
      var a, before := actions[n - 1], BoardAfter(w, sha, actions, replies, at, n - 1);
      if !(a.Start? || a.Stop?) {
        OnePlaceKept(before, sha, VerbOf(a), at);
        BoardInOrderKept(before, sha, VerbOf(a), at, at.clock.now);
      }
    }
  }

  lemma BoardLater(w: World, now: int, later: int)
    requires BoardInOrder(w, now) && now <= later
    ensures BoardInOrder(w, later)
  {
  }

  lemma CountedTry(cards: Memory, tries: Tries, attempts: nat, now: int, id: Id, outcome: Outcome, unit: Unit)
    requires Counted(cards, tries, attempts, now) && Recall(cards, CardKey(id)).starts < attempts
    ensures Counted(Remembered(cards, Start(id, unit), outcome, now), TryOn(tries, id, now), attempts, now)
  {
    var later, next := Remembered(cards, Start(id, unit), outcome, now), TryOn(tries, id, now);
    forall x: Id
      ensures var f := Recall(later, CardKey(x));
              && f.starts == |next(x)| <= attempts
              && (next(x) != [] ==> f.lastStart == Some(Last(next(x))) && Last(next(x)) <= now)
    {
      assert Recall(cards, CardKey(x)).starts == |tries(x)|;
    }
  }

  lemma {:induction false} CountedAfter(s: Effects, tries: Tries, actions: seq<Action>, replies: int -> Reply, exits: int -> set<Unit>,
                                        tick: Tick, n: nat, attempts: nat)
    requires n <= |actions| && SafeStarts(actions, s.active) && MayStart(actions, 0, s.cards, attempts)
    requires Counted(s.cards, tries, attempts, tick.now)
    ensures Counted(EffectsAfter(s, actions, replies, exits, tick, n).cards, TriesAfter(tries, actions, tick.now, n), attempts, tick.now)
  {
    hide Counted, Recall;
    if n > 0 {
      var before, a, o := EffectsAfter(s, actions, replies, exits, tick, n - 1), actions[n - 1], replies(n - 1).outcome;
      CountedAfter(s, tries, actions, replies, exits, tick, n - 1, attempts);
      if a.Start? {
        EntryUntouched(s, actions, replies, exits, tick, n - 1, a.card);
        CountedTry(before.cards, TriesAfter(tries, actions, tick.now, n - 1), attempts, tick.now, a.card, o, a.unit);
      } else {
        OthersKeepCount(before.cards, TriesAfter(tries, actions, tick.now, n - 1), attempts, tick.now, a, o);
      }
    }
  }

  lemma OthersKeepCount(cards: Memory, tries: Tries, attempts: nat, now: int, a: Action, outcome: Outcome)
    requires Counted(cards, tries, attempts, now) && !a.Start?
    ensures Counted(Remembered(cards, a, outcome, now), tries, attempts, now)
  {
    CountedIgnoresTrash(cards, tries, attempts, now, Remembered(cards, a, outcome, now));
  }

  lemma PassIsSound(s: State, m: Move, c: Setup)
    requires Sound(s, c) && Legal(s, m) && m.Passes?
    ensures Sound(Passed(s, m, c), c)
  {
    hide PlanOf, Counted, BoardInOrder, OnePlace, SettleMemory, SafeStarts, MayStart, Applied, BoardAfter, EffectsAfter, TriesAfter, KeptTries;
    var actions, attempts, tick := PlanFor(s, m, c).actions, c.config.attempts, TickOf(m.at);
    var n := Applied(actions, m.replies, 0);
    PassKeepsBoard(s.w, c.sha, actions, m.replies, m.at, n, s.clock);
    CountedLater(s.cards, s.tries, attempts, s.clock, tick.now);
    CountedSettles(s.cards, s.tries, attempts, tick.now, m.st.views, m.st.trash);
    PlanStartsSafe(m.st, tick.now, Spendable(StartOfPass(s, m), tick, c.maxRuns, c.dailyCap), c.config);
    PlanMayStart(m.st, tick.now, Spendable(StartOfPass(s, m), tick, c.maxRuns, c.dailyCap), c.config);
    CountedAfter(StartOfPass(s, m), KeptTries(s.tries, s.cards, m.st.views), actions, m.replies, m.exits, tick, n, attempts);
  }

  lemma StaysSound(s: State, m: Move, c: Setup)
    requires Sound(s, c) && Legal(s, m)
    ensures Sound(After(s, m, c), c)
  {
    hide Passed, Board.Take, Counted, BoardInOrder, OnePlace, Legal;
    if m.Passes? {
      PassIsSound(s, m, c);
    } else if m.ByHand? {
      assert s.clock < m.at.clock.now by {
        LegalClock(s, m);
      }
      OnePlaceKept(s.w, c.sha, m.verb, m.at);
      BoardInOrderKept(s.w, c.sha, m.verb, m.at, s.clock);
      CountedLater(s.cards, s.tries, c.config.attempts, s.clock, m.at.clock.now);
    }
  }

  lemma LegalClock(s: State, m: Move)
    requires Legal(s, m) && !m.UnitEnds?
    ensures s.clock < m.at.clock.now
  {
  }

  lemma {:induction false} AlwaysSound(s: State, moves: seq<Move>, c: Setup)
    requires Sound(s, c) && AllLegal(s, moves, c)
    ensures Sound(Course(s, moves, c), c)
  {
    hide After, Legal, Sound;
    if moves != [] {
      AlwaysSound(s, Init(moves), c);
      StaysSound(Course(s, Init(moves), c), Last(moves), c);
    }
  }

  lemma SoundAtFirst(c: Setup, start: int)
    ensures Sound(State(EmptyBoard, {}, map[], [], (id: Id) => [], start), c)
  {
  }

  // ---------- the hold is planned and applied ----------

  /** A reactor hold of that stamp is on the card's ledger, wherever the card is. */
  ghost predicate HeldAt(w: World, id: Id, stamp: int) {
    PlaceOf(w, id).Some?
    && exists i | 0 <= i < |PlaceOf(w, id).value.events| ::
         IsReactorHold(PlaceOf(w, id).value.events[i]) && PlaceOf(w, id).value.events[i].ts == stamp
  }

  /** No unblock of the card is as late as the stamp. */
  ghost predicate NotUnblockedSince(w: World, id: Id, stamp: int) {
    forall i | 0 <= i < |w.decisions| && w.decisions[i].card == id && w.decisions[i].kind.Unblocked? :: w.decisions[i].ts < stamp
  }

  /** A verb of a plan on another card leaves this one's directory, and none touches the decisions. */
  lemma OtherVerb(w: World, sha: string -> string, a: Action, reply: Reply, at: Instant, id: Id)
    ensures BoardStep(w, sha, a, reply, at).decisions == w.decisions && BoardStep(w, sha, a, reply, at).receipts == w.receipts
    ensures a.card != id ==> PlaceOf(BoardStep(w, sha, a, reply, at), id) == PlaceOf(w, id)
    ensures a.card != id ==> (id in BoardStep(w, sha, a, reply, at).cards <==> id in w.cards)
  {
    hide DeriveMine, Allowed, Deletion;
  }

  /** A verb of a plan never brings a card back, and takes no event from one it leaves. */
  lemma PlannedVerbGrows(w: World, sha: string -> string, a: Action, reply: Reply, at: Instant, id: Id)
    requires OnePlace(w) && PlaceOf(BoardStep(w, sha, a, reply, at), id).Some?
    ensures PlaceOf(w, id).Some? && PlaceOf(w, id).value.events <= PlaceOf(BoardStep(w, sha, a, reply, at), id).value.events
  {
    hide DeriveMine, Allowed, Deletion, Filter;
  }

  lemma HeldGrows(w: World, w': World, id: Id, stamp: int)
    requires HeldAt(w, id, stamp) && PlaceOf(w', id).Some? && PlaceOf(w, id).value.events <= PlaceOf(w', id).value.events
    ensures HeldAt(w', id, stamp)
  {
    var i :| 0 <= i < |PlaceOf(w, id).value.events| && IsReactorHold(PlaceOf(w, id).value.events[i])
             && PlaceOf(w, id).value.events[i].ts == stamp;
    assert PlaceOf(w', id).value.events[i] == PlaceOf(w, id).value.events[i];
  }

  /** The planned actions on a board card that is not deleted are starts and holds. */
  lemma ActionsOnCard(st: BoardState, now: int, b: Budget, config: Config, w: World, raw: Memory, active: set<Unit>, at: Instant, id: Id, a: Action)
    requires ObservedFrom(st, w, raw, active, at) && OnePlace(w) && id in w.cards && !FreshIn(id, w.cards[id], w, at).deleted
    requires a in PlanOf(st, now, b, config).actions && a.card == id
    ensures a.Start? || a.HoldAction?
  {
    hide DeriveMine, PlanOf, FreshIn, PlanProps.Steps, CardActions, PurgeDue, RestoreActions;
    FreshId(id, w.cards[id], w, at);
    if a.PurgeAction? {
      var r := PlanProps.PurgeIsFor(st, now, b, config, id);
    } else if a.RestoreAction? {
      var v := RestoreIsFor(st, now, b, config, id);
    } else if a.TrashAction? || a.Stop? {
      PlanProps.StepOfPlan(st, now, b, config, a);
      var v := PlanProps.StepIsFor(st, now, config, a);
      DeletedActions(st, v, config, a);
    }
  }

  lemma DeletedActions(st: BoardState, v: View, config: Config, a: Action)
    requires a in CardActions(st, v, config) && (a.TrashAction? || a.Stop?)
    ensures v.deleted
  {
  }

  lemma RestoreIsFor(st: BoardState, now: int, b: Budget, config: Config, id: Id) returns (v: View)
    requires RestoreAction(id) in PlanOf(st, now, b, config).actions
    ensures v in st.trash && v.id == id
  {
    hide PlanOf;
    PlanProps.StepOfPlan(st, now, b, config, RestoreAction(id));
    PlanProps.NotOfCards(st, Order.Arrange(st.views), config, RestoreAction(id));
    RestoresAre(st, st.trash, now, RestoreAction(id));
    PurgesAre(st, st.trashList, now, RestoreAction(id));
    v :| v in st.trash && v.id == id;
  }

  ghost predicate HoldTaken(actions: seq<Action>, replies: int -> Reply, id: Id, n: nat)
    requires n <= |actions|
  {
    exists k | 0 <= k < n :: actions[k].HoldAction? && actions[k].card == id && (replies(k).outcome.Ok? || replies(k).took)
  }

  lemma HoldTakenNext(actions: seq<Action>, replies: int -> Reply, id: Id, n: nat)
    requires 0 < n <= |actions|
    ensures HoldTaken(actions, replies, id, n) <==>
      HoldTaken(actions, replies, id, n - 1)
      || (actions[n - 1].HoldAction? && actions[n - 1].card == id && (replies(n - 1).outcome.Ok? || replies(n - 1).took))
  {
  }

  /** The card is held as soon as the pass applies a hold of it, and is untouched until then. */
  lemma {:induction false} HeldByPass(w: World, sha: string -> string, actions: seq<Action>, replies: int -> Reply, at: Instant, n: nat, id: Id)
    requires n <= |actions| && OnePlace(w) && id in w.cards && MayBeHeld(CardIn(id, w.cards[id], w), MomentFor(id, at))
    requires forall a <- actions | a.card == id :: a.Start? || (a.HoldAction? && IsReasonCode(a.reason))
    ensures var w' := BoardAfter(w, sha, actions, replies, at, n);
      && OnePlace(w') && w'.decisions == w.decisions && w'.receipts == w.receipts && PlaceOf(w', id).Some?
      && (if HoldTaken(actions, replies, id, n) then HeldAt(w', id, at.clock.now) else PlaceOf(w', id) == PlaceOf(w, id) && id in w'.cards)
  {
    hide Board.Take, OnePlace, PlaceOf, HeldAt, HoldTaken, MayBeHeld, IsReasonCode;
    if n == 0 {
      NoneTaken(w, actions, replies, id);
    } else {
      var before, a := BoardAfter(w, sha, actions, replies, at, n - 1), actions[n - 1];
      HeldByPass(w, sha, actions, replies, at, n - 1, id);
      HoldTakenNext(actions, replies, id, n);
      OtherVerb(before, sha, a, replies(n - 1), at, id);
      if !(a.Start? || a.Stop?) {
        OnePlaceKept(before, sha, VerbOf(a), at);
      }
      if a.card == id && a.HoldAction? && (replies(n - 1).outcome.Ok? || replies(n - 1).took) {
        if HoldTaken(actions, replies, id, n - 1) {
          HoldKeepsPlace(before, sha, a, replies(n - 1), at, id);
          PlannedVerbGrows(before, sha, a, replies(n - 1), at, id);
          HeldGrows(before, BoardAfter(w, sha, actions, replies, at, n), id, at.clock.now);
        } else {
          SamePlaceSameCard(w, before, id);
          HoldKeepsPlace(before, sha, a, replies(n - 1), at, id);
          HoldIsWritten(before, sha, id, a.reason, at);
        }
      } else if HoldTaken(actions, replies, id, n - 1) {
        SameHeld(before, BoardAfter(w, sha, actions, replies, at, n), id, at.clock.now);
      }
    }
  }

  lemma NoneTaken(w: World, actions: seq<Action>, replies: int -> Reply, id: Id)
    requires id in w.cards
    ensures !HoldTaken(actions, replies, id, 0) && PlaceOf(w, id).Some?
  {
  }

  lemma SameHeld(w: World, w': World, id: Id, stamp: int)
    requires HeldAt(w, id, stamp) && PlaceOf(w', id) == PlaceOf(w, id)
    ensures HeldAt(w', id, stamp)
  {
  }

  lemma SamePlaceSameCard(w: World, w': World, id: Id)
    requires id in w.cards && id in w'.cards && PlaceOf(w', id) == PlaceOf(w, id)
    requires w'.decisions == w.decisions && w'.receipts == w.receipts
    ensures CardIn(id, w'.cards[id], w') == CardIn(id, w.cards[id], w)
  {
  }

  lemma HoldKeepsPlace(w: World, sha: string -> string, a: Action, reply: Reply, at: Instant, id: Id)
    requires a.HoldAction? && PlaceOf(w, id).Some?
    ensures PlaceOf(BoardStep(w, sha, a, reply, at), id).Some?
  {
    hide DeriveMine, Allowed, Filter;
  }

  /** It wants a run, stands in order, and was unblocked before now if ever. */
  ghost predicate MayBeHeld(c: Card, at: Moment) {
    && Fresh(c, at).wants.wants.Some? && InOrder(c, at.clock.now)
    && (SinceUnblock(c.decisions).Some? ==> SinceUnblock(c.decisions).value < at.clock.now)
  }

  lemma HoldIsWritten(w: World, sha: string -> string, id: Id, reason: string, at: Instant)
    requires id in w.cards && MayBeHeld(CardIn(id, w.cards[id], w), MomentFor(id, at)) && IsReasonCode(reason)
    ensures HeldAt(Board.Take(w, sha, HoldIt(id, reason), at), id, at.clock.now)
  {
    hide DeriveMine, Allowed, InOrder, SinceUnblock, Filter, IsReasonCode;
    var c := CardIn(id, w.cards[id], w);
    HoldApplies(c, reason, MomentFor(id, at));
    var w' := Board.Take(w, sha, HoldIt(id, reason), at);
    var events := w'.cards[id].events;
    assert events == w.cards[id].events + [HeldEvent(at.clock.now, Reactor, reason)];
    assert IsReactorHold(events[|events| - 1]) && events[|events| - 1].ts == at.clock.now;
  }

  lemma NoPermanentAppliesAll(actions: seq<Action>, replies: int -> Reply)
    requires forall k | 0 <= k < |actions| :: !IsPermanent(replies(k))
    ensures Applied(actions, replies, 0) == |actions|
  {
  }

  lemma CardStandsInOrder(s: State, c: Setup, id: Id, later: int)
    requires Sound(s, c) && id in s.w.cards && s.clock <= later
    ensures InOrder(CardIn(id, s.w.cards[id], s.w), later)
  {
    PartInOrder(s.w.decisions, s.clock, id);
  }

  lemma UnblocksBefore(w: World, dir: Dir, id: Id, stamp: int)
    requires var since := SinceUnblock(CardIn(id, dir, w).decisions); since.Some? ==> since.value < stamp
    ensures NotUnblockedSince(w, id, stamp)
  {
    hide SinceUnblock;
    var mine := Filter(w.decisions, OfCard(id));
    SinceUnblockIsMax(mine);
    FilterMembers(w.decisions, OfCard(id));
    forall i | 0 <= i < |w.decisions| && w.decisions[i].card == id && w.decisions[i].kind.Unblocked? ensures w.decisions[i].ts < stamp {
      assert w.decisions[i] in mine;
      var k :| 0 <= k < |mine| && mine[k] == w.decisions[i];
    }
  }

  predicate Wanting(v: View) {
    !v.deleted && v.wants.wants.Some?
  }

  /** The pass considers the card, and finds it tried too often since its count was last reset, or failed too often in a row. */
  ghost predicate Exhausted(s: State, m: Move, c: Setup, id: Id)
    requires m.Passes?
  {
    && id in s.w.cards
    && Wanting(FreshIn(id, s.w.cards[id], s.w, m.at)) && !HasActive(m.st, id)
    && (|KeptTries(s.tries, s.cards, m.st.views)(id)| >= c.config.attempts
        || FreshIn(id, s.w.cards[id], s.w, m.at).failedStreak >= c.config.attempts)
  }

  /** No permanent error ends the pass, and the ledger takes the hold. */
  ghost predicate Answered(s: State, m: Move, c: Setup, id: Id)
    requires m.Passes?
  {
    var actions := PlanFor(s, m, c).actions;
    forall k | 0 <= k < |actions| ::
      !IsPermanent(m.replies(k)) && (actions[k].HoldAction? && actions[k].card == id ==> m.replies(k).outcome.Ok?)
  }

  lemma ExhaustedIsPlanned(s: State, m: Move, c: Setup, id: Id)
    requires Sound(s, c) && Legal(s, m) && m.Passes? && Exhausted(s, m, c, id) && c.config.attempts >= 1
    ensures exists reason :: HoldAction(id, reason) in PlanFor(s, m, c).actions
    ensures MayBeHeld(CardIn(id, s.w.cards[id], s.w), MomentFor(id, m.at))
    ensures forall a <- PlanFor(s, m, c).actions | a.card == id :: a.Start? || (a.HoldAction? && IsReasonCode(a.reason))
  {
    hide DeriveMine, PlanOf, Counted, BoardInOrder, SettleMemory, KeptTries, Recall, InOrder, SinceUnblock, MemoryTrue, IsReasonCode,
      RowsOf, Plan.Quarantine, FreshIn;
    var now, b, attempts := m.at.clock.now, Spendable(StartOfPass(s, m), TickOf(m.at), c.maxRuns, c.dailyCap), c.config.attempts;
    var card, at, v := CardIn(id, s.w.cards[id], s.w), MomentFor(id, m.at), FreshIn(id, s.w.cards[id], s.w, m.at);
    FreshId(id, s.w.cards[id], s.w, m.at);
    CountedLater(s.cards, s.tries, attempts, s.clock, now);
    CountedSettles(s.cards, s.tries, attempts, now, m.st.views, m.st.trash);
    CountedIsTrue(s.cards, s.tries, attempts, now);
    TriedOut(m.st.memory, KeptTries(s.tries, s.cards, m.st.views), attempts, now, v, c.config);
    PlanProps.HeldWhenQuarantined(m.st, now, b, c.config, v);
    var reason := Plan.Quarantine(v, Recall(m.st.memory, CardKey(id)), c.config).value;
    CardStandsInOrder(s, c, id, now);
    assert v == Fresh(card, at) by {
      FreshIsIn(id, s.w.cards[id], s.w, m.at);
    }
    HoldIsAfterUnblock(m.st, s.cards, now, b, c.config, card, at, reason);
    forall a <- PlanFor(s, m, c).actions | a.card == id ensures a.Start? || (a.HoldAction? && IsReasonCode(a.reason)) {
      ActionsOnCard(m.st, now, b, c.config, s.w, s.cards, s.active, m.at, id, a);
      if a.HoldAction? {
        HoldMeans(m.st, now, b, c.config, v, a.reason);
        PlannedReason(v, Recall(m.st.memory, CardKey(id)), c.config);
      }
    }
  }

  lemma FreshIsIn(id: Id, dir: Dir, w: World, at: Instant)
    ensures FreshIn(id, dir, w, at) == Fresh(CardIn(id, dir, w), MomentFor(id, at))
  {
  }

  lemma TriedOut(memory: Memory, tries: Tries, attempts: nat, now: int, v: View, config: Config)
    requires Counted(memory, tries, attempts, now) && attempts == config.attempts
    requires |tries(v.id)| >= attempts || v.failedStreak >= attempts
    ensures Plan.Quarantine(v, Recall(memory, CardKey(v.id)), config).Some?
  {
    assert Recall(memory, CardKey(v.id)).starts == |tries(v.id)|;
  }

  /** A pass that considers a card tried or failed too often holds it. */
  lemma QuarantineTakes(s: State, m: Move, c: Setup, id: Id)
    requires Sound(s, c) && Legal(s, m) && m.Passes? && c.config.attempts >= 1
    requires Exhausted(s, m, c, id) && Answered(s, m, c, id)
    ensures HeldAt(After(s, m, c).w, id, m.at.clock.now) && NotUnblockedSince(After(s, m, c).w, id, m.at.clock.now)
  {
    hide PlanOf, Board.Take, Legal, HeldAt, MayBeHeld, IsReasonCode, Counted, BoardInOrder, NotUnblockedSince, IsPermanent, EffectsAfter,
      TriesAfter, Exhausted, FreshIn, BoardAfter;
    var actions := PlanFor(s, m, c).actions;
    ExhaustedIsPlanned(s, m, c, id);
    NoPermanentAppliesAll(actions, m.replies);
    InCards(s, m, c, id);
    HeldByPass(s.w, c.sha, actions, m.replies, m.at, |actions|, id);
    var reason :| HoldAction(id, reason) in actions;
    var k :| 0 <= k < |actions| && actions[k] == HoldAction(id, reason);
    assert HoldTaken(actions, m.replies, id, |actions|);
    SinceOf(CardIn(id, s.w.cards[id], s.w), MomentFor(id, m.at));
    UnblocksBefore(s.w, s.w.cards[id], id, m.at.clock.now);
    SameUnblocks(s.w, After(s, m, c).w, id, m.at.clock.now);
  }

  lemma InCards(s: State, m: Move, c: Setup, id: Id)
    requires m.Passes? && Exhausted(s, m, c, id)
    ensures id in s.w.cards
  {
  }

  lemma SinceOf(c: Card, at: Moment)
    requires MayBeHeld(c, at)
    ensures SinceUnblock(c.decisions).Some? ==> SinceUnblock(c.decisions).value < at.clock.now
  {
  }

  lemma SameUnblocks(w: World, w': World, id: Id, stamp: int)
    requires NotUnblockedSince(w, id, stamp) && w'.decisions == w.decisions
    ensures NotUnblockedSince(w', id, stamp)
  {
  }

  // ---------- the hold sticks, through any run ----------

  /** A verb takes no event from a card it leaves on the board or in the trash. */
  lemma VerbGrows(w: World, sha: string -> string, v: Verbs, at: Instant, id: Id)
    requires OnePlace(w) && PlaceOf(w, id).Some? && PlaceOf(Board.Take(w, sha, v, at), id).Some?
    ensures PlaceOf(w, id).value.events <= PlaceOf(Board.Take(w, sha, v, at), id).value.events
  {
    hide DeriveMine, Allowed, Deletion, Filter, DecideOk;
  }

  lemma {:induction false} PassGrows(w: World, sha: string -> string, actions: seq<Action>, replies: int -> Reply, at: Instant, n: nat, id: Id)
    requires n <= |actions| && OnePlace(w) && PlaceOf(BoardAfter(w, sha, actions, replies, at, n), id).Some?
    ensures PlaceOf(w, id).Some? && PlaceOf(w, id).value.events <= PlaceOf(BoardAfter(w, sha, actions, replies, at, n), id).value.events
    ensures OnePlace(BoardAfter(w, sha, actions, replies, at, n))
  {
    hide Board.Take, PlaceOf, OnePlace;
    if n > 0 {
      var before, a := BoardAfter(w, sha, actions, replies, at, n - 1), actions[n - 1];
      PassIsOnePlace(w, sha, actions, replies, at, n - 1);
      PassIsOnePlace(w, sha, actions, replies, at, n);
      PlannedVerbGrows(before, sha, a, replies(n - 1), at, id);
      PassGrows(w, sha, actions, replies, at, n - 1, id);
    }
  }

  lemma {:induction false} PassIsOnePlace(w: World, sha: string -> string, actions: seq<Action>, replies: int -> Reply, at: Instant, n: nat)
    requires n <= |actions| && OnePlace(w)
    ensures OnePlace(BoardAfter(w, sha, actions, replies, at, n))
  {
    hide Board.Take, OnePlace;
    if n > 0 {
      PassIsOnePlace(w, sha, actions, replies, at, n - 1);
      var a := actions[n - 1];
      if !(a.Start? || a.Stop?) {
        OnePlaceKept(BoardAfter(w, sha, actions, replies, at, n - 1), sha, VerbOf(a), at);
      }
    }
  }

  lemma HeldMove(s: State, m: Move, c: Setup, id: Id, stamp: int)
    requires Sound(s, c) && HeldAt(s.w, id, stamp) && PlaceOf(After(s, m, c).w, id).Some?
    ensures HeldAt(After(s, m, c).w, id, stamp)
  {
    hide Board.Take, PlanOf, BoardAfter, EffectsAfter, TriesAfter, KeptTries, Applied, Counted, BoardInOrder, OnePlace, PlaceOf;
    match m {
      case ByHand(v, at) => VerbGrows(s.w, c.sha, v, at, id);
      case UnitEnds(_) =>
      case Passes(_, at, replies, _) =>
        var actions := PlanFor(s, m, c).actions;
        PassGrows(s.w, c.sha, actions, replies, at, Applied(actions, replies, 0), id);
    }
    if !m.UnitEnds? {
      HeldGrows(s.w, After(s, m, c).w, id, stamp);
    }
  }

  /** The card is never purged: it is on the board or in the trash after each move. */
  ghost predicate NeverPurged(s: State, moves: seq<Move>, c: Setup, id: Id) {
    PlaceOf(Course(s, moves, c).w, id).Some? && (moves == [] || NeverPurged(s, Init(moves), c, id))
  }

  lemma {:induction false} HeldAlong(s: State, moves: seq<Move>, c: Setup, id: Id, stamp: int)
    requires Sound(s, c) && AllLegal(s, moves, c) && HeldAt(s.w, id, stamp) && NeverPurged(s, moves, c, id)
    ensures HeldAt(Course(s, moves, c).w, id, stamp)
  {
    hide After, Legal, Sound, HeldAt, PlaceOf;
    if moves != [] {
      HeldAlong(s, Init(moves), c, id, stamp);
      AlwaysSound(s, Init(moves), c);
      HeldMove(Course(s, Init(moves), c), Last(moves), c, id, stamp);
    }
  }

  /** While the hold is on the ledger and no unblock has reached it, a pass neither starts the card
      nor holds it again, and the card shows Blocked or Done. */
  lemma HeldIsLeft(s: State, m: Move, c: Setup, id: Id, stamp: int)
    requires Sound(s, c) && Legal(s, m) && m.Passes? && HeldAt(s.w, id, stamp) && NotUnblockedSince(s.w, id, stamp)
    ensures forall a <- PlanFor(s, m, c).actions | a.card == id :: !a.Start? && !a.HoldAction?
    ensures id in s.w.cards ==> var v := FreshIn(id, s.w.cards[id], s.w, m.at); v.column.Blocked? || v.column.Done?
  {
    hide DeriveMine, PlanOf, Counted, BoardInOrder, SettleMemory, RowsOf, Filter;
    var now, b := m.at.clock.now, Spendable(StartOfPass(s, m), TickOf(m.at), c.maxRuns, c.dailyCap);
    var events := PlaceOf(s.w, id).value.events;
    var i :| 0 <= i < |events| && IsReactorHold(events[i]) && events[i].ts == stamp;
    if id in s.w.cards {
      var card, at := CardIn(id, s.w.cards[id], s.w), MomentFor(id, m.at);
      OwnUnblocks(s.w, s.w.cards[id], id, stamp);
      HoldSticks(card, i, at.(main := None));
      forall a <- PlanFor(s, m, c).actions | a.card == id ensures !a.Start? && !a.HoldAction? {
        PlannerLeavesHeldCard(m.st, now, b, c.config, card, i, at, a);
      }
    } else {
      forall a <- PlanFor(s, m, c).actions | a.card == id ensures !a.Start? && !a.HoldAction? {
        if a.Start? || a.HoldAction? {
          StartsAndHoldsAreOnBoard(m.st, now, b, c.config, a);
        }
      }
    }
  }

  lemma OwnUnblocks(w: World, dir: Dir, id: Id, stamp: int)
    requires NotUnblockedSince(w, id, stamp)
    ensures var c := CardIn(id, dir, w); forall k | 0 <= k < |c.decisions| && c.decisions[k].kind.Unblocked? :: c.decisions[k].ts < stamp
  {
    var mine := Filter(w.decisions, OfCard(id));
    FilterMembers(w.decisions, OfCard(id));
    forall k | 0 <= k < |mine| && mine[k].kind.Unblocked? ensures mine[k].ts < stamp {
      assert mine[k] in mine;
      var i :| 0 <= i < |w.decisions| && w.decisions[i] == mine[k];
    }
  }

  lemma StartsAndHoldsAreOnBoard(st: BoardState, now: int, b: Budget, config: Config, a: Action)
    requires a in PlanOf(st, now, b, config).actions && (a.Start? || a.HoldAction?)
    ensures exists v <- st.views :: v.id == a.card
  {
    hide PlanOf, PlanProps.Steps, CardActions;
    if a.Start? {
      var v := PlanProps.StartIsSafe(st, now, b, config, a);
    } else {
      PlanProps.StepOfPlan(st, now, b, config, a);
      var v := PlanProps.StepIsFor(st, now, config, a);
    }
  }

  /** From an empty board and an idle reactor, whatever people, units and passes did before and do since:
      once a pass considers a card tried or failed too often, no later pass starts it or holds it again until an
      unblock no older than that pass, or a purge. */
  lemma QuarantineHoldsUntilUnblock(c: Setup, start: int, before: seq<Move>, m: Move, since: seq<Move>, later: Move, id: Id)
    requires c.config.attempts >= 1 && m.Passes? && later.Passes?
    requires var s := Course(State(EmptyBoard, {}, map[], [], (x: Id) => [], start), before, c);
      && AllLegal(State(EmptyBoard, {}, map[], [], (x: Id) => [], start), before, c)
      && Legal(s, m) && Exhausted(s, m, c, id) && Answered(s, m, c, id)
      && AllLegal(After(s, m, c), since, c) && NeverPurged(After(s, m, c), since, c, id)
      && Legal(Course(After(s, m, c), since, c), later)
      && NotUnblockedSince(Course(After(s, m, c), since, c).w, id, m.at.clock.now)
    ensures var s := Course(State(EmptyBoard, {}, map[], [], (x: Id) => [], start), before, c);
            var e := Course(After(s, m, c), since, c);
      && (forall a <- PlanFor(e, later, c).actions | a.card == id :: !a.Start? && !a.HoldAction?)
      && (id in e.w.cards ==>
            FreshIn(id, e.w.cards[id], e.w, later.at).column.Blocked? || FreshIn(id, e.w.cards[id], e.w, later.at).column.Done?)
  {
    hide PlanOf, After, Legal, Sound, HeldAt, NotUnblockedSince, Exhausted, Answered, PlaceOf, FreshIn, PlanFor;
    var empty := State(EmptyBoard, {}, map[], [], (x: Id) => [], start);
    var s := Course(empty, before, c);
    SoundAtFirst(c, start);
    AlwaysSound(empty, before, c);
    QuarantineTakes(s, m, c, id);
    StaysSound(s, m, c);
    HeldAlong(After(s, m, c), since, c, id, m.at.clock.now);
    AlwaysSound(After(s, m, c), since, c);
    HeldIsLeft(Course(After(s, m, c), since, c), later, c, id, m.at.clock.now);
  }
}

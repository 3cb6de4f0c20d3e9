/** The board as the reactor's source: observe the store, and apply one planned action to it. */
module Source {
  import opened Seqs
  import opened Ledger
  import opened Life
  import opened Board
  import opened Lives
  import opened Plan
  import opened Quarantine
  import Order
  import PlanProps
  import Reactor

  // ---------- observe ----------

  function FreshIn(id: Id, dir: Dir, w: World, at: Instant): View {
    Fresh(CardIn(id, dir, w), MomentFor(id, at))
  }

  /** One view per directory, and no other. */
  ghost predicate ViewsOf(vs: seq<View>, dirs: map<Id, Dir>, w: World, at: Instant) {
    && DistinctIds(vs)
    && (forall v <- vs :: v.id in dirs && v == FreshIn(v.id, dirs[v.id], w, at))
    && (forall id | id in dirs :: FreshIn(id, dirs[id], w, at) in vs)
  }

  /** One row per trashed card: past the retention it may be purged, never without a deletion. */
  ghost predicate RowsOf(rows: seq<TrashRow>, w: World) {
    && (forall r <- rows :: r.id in w.trash && r.purgeAfter == PurgeAfter(w, r.id))
    && (forall id | id in w.trash :: TrashRow(id, PurgeAfter(w, id)) in rows)
  }

  function PurgeAfter(w: World, id: Id): Option<int> {
    if DeletedAt(w, id).Some? then Some(DeletedAt(w, id).value + TRASH_SECONDS) else None
  }

  ghost predicate ObservedFrom(st: BoardState, w: World, raw: Memory, active: set<Unit>, at: Instant) {
    && ViewsOf(st.views, w.cards, w, at)
    && ViewsOf(st.trash, w.trash, w, at)
    && RowsOf(st.trashList, w)
    && st.active == active
    && st.memory == SettleMemory(raw, st.views, st.trash)
  }

  lemma FreshId(id: Id, dir: Dir, w: World, at: Instant)
    ensures FreshIn(id, dir, w, at).id == id
  {
  }

  method Derived(dirs: map<Id, Dir>, decisions: seq<Decision>, receipts: map<RunId, Receipt>, ghost w: World, at: Instant)
    returns (vs: seq<View>)
    requires w.decisions == decisions && w.receipts == receipts
    ensures ViewsOf(vs, dirs, w, at)
  {
    hide DeriveMine;
    var left := dirs.Keys;
    vs := [];
    while left != {}
      invariant left <= dirs.Keys
      invariant DistinctIds(vs)
      invariant forall v <- vs :: v.id in dirs && v.id !in left && v == FreshIn(v.id, dirs[v.id], w, at)
      invariant forall id | id in dirs && id !in left :: FreshIn(id, dirs[id], w, at) in vs
      decreases left
    {
      var id :| id in left;
      left := left - {id};
      var card := Card(id, dirs[id].fields, dirs[id].events, Filter(decisions, OfCard(id)), receipts);
      FreshId(id, dirs[id], w, at);
      forall i | 0 <= i < |vs| ensures vs[i].id != id {
        assert vs[i] in vs;
      }
      vs := vs + [Fresh(card, MomentFor(id, at))];
    }
  }

  method Listed(store: Store) returns (rows: seq<TrashRow>)
    ensures RowsOf(rows, store.Now())
  {
    var left := store.trash.Keys;
    rows := [];
    while left != {}
      invariant left <= store.trash.Keys
      invariant forall r <- rows :: r.id in store.trash && r.purgeAfter == PurgeAfter(store.Now(), r.id)
      invariant forall id | id in store.trash && id !in left :: TrashRow(id, PurgeAfter(store.Now(), id)) in rows
      decreases left
    {
      var id :| id in left;
      left := left - {id};
      var deleted := Deletion(Filter(store.decisions, OfCard(id)));
      var after := if deleted.Some? then Some(deleted.value + TRASH_SECONDS) else None;
      rows := rows + [TrashRow(id, after)];
    }
  }

  /** The ledger at `at`, deleted cards included, without the canonical-main join. */
  method Observe(store: Store, raw: Memory, active: set<Unit>, at: Instant) returns (st: BoardState)
    ensures ObservedFrom(st, store.Now(), raw, active, at)
  {
    hide ViewsOf, RowsOf;
    var views := Derived(store.cards, store.decisions, store.receipts, store.Now(), at);
    var trash := Derived(store.trash, store.decisions, store.receipts, store.Now(), at);
    var rows := Listed(store);
    st := BoardState(views, active, SettleMemory(raw, views, trash), trash, rows);
  }

  // ---------- apply ----------

  /** The verb a planned action on the ledger or the trash runs. */
  function VerbOf(a: Action): Verbs
    requires !a.Start? && !a.Stop?
  {
    match a
    case HoldAction(card, reason) => HoldIt(card, reason)
    case TrashAction(card) => Board.Trash(card)
    case RestoreAction(card) => RestoreIt(card)
    case PurgeAction(card) => Purge(card)
  }

  const Conflict: Reactor.Outcome := Reactor.Failed(Reactor.Transient, "trash-conflict")
  const Refused: Reactor.Outcome := Reactor.Failed(Reactor.Transient, "ledger-refused")

  /** Apply one action; a refusal by the ledger is transient, a card in both places a conflict. */
  method ApplyToBoard(store: Store, a: Action, at: Instant) returns (outcome: Reactor.Outcome)
    requires !a.Start? && !a.Stop?
    modifies store
    ensures store.Now() == Board.Take(old(store.Now()), store.sha, VerbOf(a), at)
    ensures outcome == match a
            case HoldAction(card, reason) =>
              if card in old(store.cards) && IsReasonCode(reason) then Reactor.Ok else Refused
            case TrashAction(card) => if card in old(store.cards) && card in old(store.trash) then Conflict else Reactor.Ok
            case RestoreAction(card) => if card in old(store.cards) && card in old(store.trash) then Conflict else Reactor.Ok
            case PurgeAction(_) => Reactor.Ok
  {
    hide Board.Take, IsReasonCode;
    match a {
      case HoldAction(card, reason) =>
        outcome := if card in store.cards && IsReasonCode(reason) then Reactor.Ok else Refused;
        var held := store.Hold(card, reason, at);
      case TrashAction(card) =>
        outcome := if card in store.cards && card in store.trash then Conflict else Reactor.Ok;
        var moved := store.TrashCard(card, at);
      case RestoreAction(card) =>
        outcome := if card in store.cards && card in store.trash then Conflict else Reactor.Ok;
        var moved := store.RestoreCard(card, at);
      case PurgeAction(card) =>
        var gone := store.PurgeCard(card, at);
        outcome := Reactor.Ok;
    }
  }

  // ---------- what applying a plan does ----------

  lemma PlannedReason(v: View, e: Entry, config: Config)
    ensures Plan.Quarantine(v, e, config).Some? ==> IsReasonCode(Plan.Quarantine(v, e, config).value)
  {
    var a, b := "poison-attempts", "poison-start";
    assert forall i | 1 <= i < |a| :: 'a' <= a[i] <= 'z' || a[i] == '-';
    assert forall i | 1 <= i < |b| :: 'a' <= b[i] <= 'z' || b[i] == '-';
  }

  /** A hold planned from an observation of the board and applied to it leaves the card Blocked. */
  lemma PlannedHoldBlocks(st: BoardState, w: World, raw: Memory, active: set<Unit>, at: Instant, b: Budget,
                          config: Config, sha: string -> string, id: Id, reason: string)
    requires ObservedFrom(st, w, raw, active, at) && MemoryTrue(raw, at.clock.now) && config.attempts >= 1
    requires id in w.cards && InOrder(CardIn(id, w.cards[id], w), at.clock.now)
    requires HoldAction(id, reason) in PlanOf(st, at.clock.now, b, config).actions
    ensures var w' := Board.Take(w, sha, HoldIt(id, reason), at);
            id in w'.cards && w' != w && FreshIn(id, w'.cards[id], w', at).column.Blocked?
  {
    hide DeriveMine, PlanOf, InOrder, MemoryTrue, SettleMemory, IsReasonCode, Allowed, RowsOf, SinceUnblock;
    var c, m := CardIn(id, w.cards[id], w), MomentFor(id, at);
    FreshId(id, w.cards[id], w, at);
    HoldMeans(st, at.clock.now, b, config, Fresh(c, m), reason);
    PlannedReason(Fresh(c, m), Recall(st.memory, CardKey(id)), config);
    HoldIsAfterUnblock(st, raw, at.clock.now, b, config, c, m, reason);
    HoldApplies(c, reason, m);
    var w' := Board.Take(w, sha, HoldIt(id, reason), at);
    assert CardIn(id, w'.cards[id], w') == Next(c, HoldCard(reason), m);
    assert |w'.cards[id].events| == |w.cards[id].events| + 1;
  }

  /** A purge planned from an observation is carried out: the planner's row and the verb agree on
      when a trashed card's time is up. */
  lemma PlannedPurgeIsDue(st: BoardState, w: World, raw: Memory, active: set<Unit>, at: Instant, b: Budget,
                          config: Config, sha: string -> string, id: Id)
    requires ObservedFrom(st, w, raw, active, at) && OnePlace(w)
    requires PurgeAction(id) in PlanOf(st, at.clock.now, b, config).actions
    ensures id in w.trash && id !in Board.Take(w, sha, Purge(id), at).trash
    ensures FreshIn(id, w.trash[id], w, at).deleted
  {
    hide DeriveMine, PlanOf, SettleMemory, Deletion, DeletedAt, FreshIn;
    var r := PlanProps.PurgeIsFor(st, at.clock.now, b, config, id);
    FreshId(id, w.trash[id], w, at);
    FindViewUnique(st.trash, FreshIn(id, w.trash[id], w, at));
  }
}

/** The board source's plan: what to start, stop, hold, trash, restore and purge, from the observed
    state alone.  `PlanOf` is the plan; class `Planner` builds it card by card. */
module Plan {
  import opened Seqs
  import opened Ledger
  import opened Order

  const SLOT_RECHECK: int := 30

  datatype Config = Config(cooldown: int, attempts: nat)

  /** A run unit: `board-brief@<id>` or `board-work@<id>`. */
  datatype Unit = Unit(purpose: Purpose, card: Id)

  /** What the reactor remembers per card, and per trashed card whose restore was refused. */
  datatype MemKey = CardKey(id: Id) | TrashKey(id: Id)
  datatype Entry = Entry(starts: nat, lastStart: Option<int>, nextTry: Option<int>, failures: nat)

  const NoEntry: Entry := Entry(0, None, None, 0)

  type Memory = map<MemKey, Entry>

  datatype TrashRow = TrashRow(id: Id, purgeAfter: Option<int>)

  /** One observation.  `views` and `trash` have one view per id. */
  datatype BoardState = BoardState(views: seq<View>, active: set<Unit>, memory: Memory,
                                   trash: seq<View>, trashList: seq<TrashRow>)

  datatype Action =
    | Start(card: Id, unit: Unit)
    | Stop(card: Id, unit: Unit)
    | HoldAction(card: Id, reason: string)
    | TrashAction(card: Id)
    | RestoreAction(card: Id)
    | PurgeAction(card: Id)

  datatype Budget = Budget(slots: int, remainingToday: Option<int>)
  datatype PlanResult = PlanResult(actions: seq<Action>, wakeAt: Option<int>, capped: bool)

  ghost predicate DistinctIds(vs: seq<View>) {
    forall i, j | 0 <= i < j < |vs| :: vs[i].id != vs[j].id
  }

  // ---------- memory, readiness, quarantine ----------

  function LastPick(v: View): Option<int> {
    if v.runs == [] then None else Some(Last(v.runs).ts)
  }

  function Latest2(a: Option<int>, b: Option<int>): Option<int> {
    if a.None? then b else if b.None? then a else Some(Max(a.value, b.value))
  }

  /** A pick or an unblock no older than the last start clears the count. */
  function SettledStarts(e: Entry, v: View): Entry {
    var cleared := Latest2(LastPick(v), v.unblockedAt);
    if e.lastStart.Some? && cleared.Some? && cleared.value >= e.lastStart.value then e.(starts := 0) else e
  }

  function FindView(vs: seq<View>, id: Id): Option<View> {
    if vs == [] then None else if Last(vs).id == id then Some(Last(vs)) else FindView(Init(vs), id)
  }

  /** Memory after observation; a key that has left the board and the trash is dropped. */
  function SettleMemory(memory: Memory, views: seq<View>, trash: seq<View>): Memory {
    map k | k in memory && (if k.CardKey? then FindView(views, k.id).Some? else FindView(trash, k.id).Some?)
      :: if k.CardKey? then SettledStarts(memory[k], FindView(views, k.id).value) else memory[k]
  }

  function Recall(memory: Memory, k: MemKey): Entry {
    if k in memory then memory[k] else NoEntry
  }

  function Quarantine(v: View, e: Entry, config: Config): Option<string> {
    if v.failedStreak >= config.attempts then Some("poison-attempts")
    else if e.starts >= config.attempts then Some("poison-start")
    else None
  }

  function ReadyAt(v: View, e: Entry, config: Config): Option<int> {
    var stamp := Latest2(LastPick(v), e.lastStart);
    var cooled := if stamp.Some? then Some(stamp.value + config.cooldown) else None;
    Latest2(cooled, e.nextTry)
  }

  predicate Due(at: Option<int>, now: int) {
    at.None? || at.value <= now
  }

  // ---------- one card ----------

  predicate HasActive(st: BoardState, id: Id) {
    Unit(BriefRun, id) in st.active || Unit(ResearchRun, id) in st.active
  }

  /** The card is considered for a run: undeleted, wanting one, with no unit of its own active. */
  predicate Considered(st: BoardState, v: View) {
    !v.deleted && v.wants.wants.Some? && !HasActive(st, v.id)
  }

  /** At `now` the same state would put the card in the start queue. */
  predicate WouldQueue(st: BoardState, v: View, config: Config, now: int) {
    var e := Recall(st.memory, CardKey(v.id));
    Considered(st, v) && Quarantine(v, e, config).None? && Due(ReadyAt(v, e, config), now)
  }

  function StopsOf(id: Id, active: set<Unit>): seq<Action> {
    (if Unit(BriefRun, id) in active then [Stop(id, Unit(BriefRun, id))] else [])
    + (if Unit(ResearchRun, id) in active then [Stop(id, Unit(ResearchRun, id))] else [])
  }

  function CardActions(st: BoardState, v: View, config: Config): seq<Action> {
    var e := Recall(st.memory, CardKey(v.id));
    if v.deleted then (if HasActive(st, v.id) then StopsOf(v.id, st.active) else [TrashAction(v.id)])
    else if Considered(st, v) && Quarantine(v, e, config).Some? then [HoldAction(v.id, Quarantine(v, e, config).value)]
    else []
  }

  function CardQueue(st: BoardState, v: View, config: Config, now: int): seq<Action> {
    if WouldQueue(st, v, config, now) then [Start(v.id, Unit(v.wants.wants.value, v.id))] else []
  }

  /** A scheduled card's due time. */
  function DueWakes(v: View): seq<int> {
    if !v.deleted && v.scheduled && v.dueAt.Some? then [v.dueAt.value] else []
  }

  /** The end of a cooldown or a backoff that alone keeps the card out of the queue. */
  function ReadyWakes(st: BoardState, v: View, config: Config, now: int): seq<int> {
    var e := Recall(st.memory, CardKey(v.id));
    var ready := ReadyAt(v, e, config);
    if Considered(st, v) && Quarantine(v, e, config).None? && !Due(ready, now) then [ready.value] else []
  }

  function CardWakes(st: BoardState, v: View, config: Config, now: int): seq<int> {
    DueWakes(v) + ReadyWakes(st, v, config, now)
  }

  function AllActions(st: BoardState, vs: seq<View>, config: Config): seq<Action> {
    if vs == [] then [] else AllActions(st, Init(vs), config) + CardActions(st, Last(vs), config)
  }

  function AllQueue(st: BoardState, vs: seq<View>, config: Config, now: int): seq<Action> {
    if vs == [] then [] else AllQueue(st, Init(vs), config, now) + CardQueue(st, Last(vs), config, now)
  }

  function AllWakes(st: BoardState, vs: seq<View>, config: Config, now: int): seq<int> {
    if vs == [] then [] else AllWakes(st, Init(vs), config, now) + CardWakes(st, Last(vs), config, now)
  }

  // ---------- the trash ----------

  function RestoreBackoff(st: BoardState, id: Id): Option<int> {
    Recall(st.memory, TrashKey(id)).nextTry
  }

  function RestoreActions(st: BoardState, vs: seq<View>, now: int): seq<Action> {
    if vs == [] then []
    else if !Last(vs).deleted && Due(RestoreBackoff(st, Last(vs).id), now) then
      RestoreActions(st, Init(vs), now) + [RestoreAction(Last(vs).id)]
    else RestoreActions(st, Init(vs), now)
  }

  function RestoreWakes(st: BoardState, vs: seq<View>, now: int): seq<int> {
    if vs == [] then []
    else if !Last(vs).deleted && !Due(RestoreBackoff(st, Last(vs).id), now) then
      RestoreWakes(st, Init(vs), now) + [RestoreBackoff(st, Last(vs).id).value]
    else RestoreWakes(st, Init(vs), now)
  }

  /** The retention has passed and no restore is pending. */
  predicate PurgeDue(st: BoardState, row: TrashRow, now: int) {
    && row.purgeAfter.Some? && row.purgeAfter.value <= now
    && var v := FindView(st.trash, row.id); v.None? || v.value.deleted
  }

  function PurgeActions(st: BoardState, rows: seq<TrashRow>, now: int): seq<Action> {
    if rows == [] then []
    else if PurgeDue(st, Last(rows), now) then PurgeActions(st, Init(rows), now) + [PurgeAction(Last(rows).id)]
    else PurgeActions(st, Init(rows), now)
  }

  // ---------- the budget ----------

  function Room(b: Budget): nat {
    Max(if b.remainingToday.None? then b.slots else Min(b.slots, b.remainingToday.value), 0)
  }

  predicate Capped(queued: nat, b: Budget) {
    b.remainingToday.Some? && queued > b.remainingToday.value
  }

  function SlotWakes(queued: nat, b: Budget, now: int): seq<int> {
    if queued > Room(b) && b.slots <= Room(b) then [now + SLOT_RECHECK] else []
  }

  function Take(queue: seq<Action>, n: nat): seq<Action> {
    if n <= |queue| then queue[..n] else queue
  }

  function MinOf(xs: seq<int>): Option<int> {
    if xs == [] then None
    else
      var m := MinOf(Init(xs));
      if m.Some? then Some(Min(m.value, Last(xs))) else Some(Last(xs))
  }

  function PlanOf(st: BoardState, now: int, b: Budget, config: Config): PlanResult {
    var vs := Arrange(st.views);
    var queue := AllQueue(st, vs, config, now);
    PlanResult(AllActions(st, vs, config) + RestoreActions(st, st.trash, now) + PurgeActions(st, st.trashList, now)
               + Take(queue, Room(b)),
               MinOf(AllWakes(st, vs, config, now) + RestoreWakes(st, st.trash, now) + SlotWakes(|queue|, b, now)),
               Capped(|queue|, b))
  }

  // ---------- the planner, filling its lists ----------

  class Planner {
    const state: BoardState
    const now: int
    const config: Config
    var actions: seq<Action>
    var queue: seq<Action>
    var wakes: seq<int>

    constructor (state: BoardState, now: int, config: Config)
      ensures this.state == state && this.now == now && this.config == config
      ensures actions == [] && queue == [] && wakes == []
    {
      this.state, this.now, this.config := state, now, config;
      actions, queue, wakes := [], [], [];
    }

    method Card(v: View)
      modifies this
      ensures actions == old(actions) + CardActions(state, v, config)
      ensures queue == old(queue) + CardQueue(state, v, config, now)
      ensures wakes == old(wakes) + CardWakes(state, v, config, now)
    {
      if v.deleted {
        if HasActive(state, v.id) {
          actions := actions + StopsOf(v.id, state.active);
        } else {
          actions := actions + [TrashAction(v.id)];
        }
        return;
      }
      if v.scheduled && v.dueAt.Some? {
        wakes := wakes + [v.dueAt.value];
      }
      if v.wants.wants.None? || HasActive(state, v.id) {
        return;
      }
      Wanted(v);
    }

    method Wanted(v: View)
      requires Considered(state, v)
      modifies this
      ensures actions == old(actions) + CardActions(state, v, config)
      ensures queue == old(queue) + CardQueue(state, v, config, now)
      ensures wakes == old(wakes) + ReadyWakes(state, v, config, now)
    {
      var entry := Recall(state.memory, CardKey(v.id));
      var reason := Quarantine(v, entry, config);
      if reason.Some? {
        actions := actions + [HoldAction(v.id, reason.value)];
        return;
      }
      var ready := ReadyAt(v, entry, config);
      if ready.Some? && now < ready.value {
        wakes := wakes + [ready.value];
        return;
      }
      queue := queue + [Start(v.id, Unit(v.wants.wants.value, v.id))];
    }

    method TrashPass()
      modifies this
      ensures actions == old(actions) + RestoreActions(state, state.trash, now) + PurgeActions(state, state.trashList, now)
      ensures wakes == old(wakes) + RestoreWakes(state, state.trash, now)
      ensures queue == old(queue)
    {
      ghost var acted, waked := actions, wakes;
      for i := 0 to |state.trash|
        invariant actions == acted + RestoreActions(state, state.trash[..i], now)
        invariant wakes == waked + RestoreWakes(state, state.trash[..i], now)
        invariant queue == old(queue)
      {
        assert Init(state.trash[..i + 1]) == state.trash[..i];
        if !state.trash[i].deleted {
          RestoreOne(state.trash[i].id);
        }
      }
      assert state.trash[..|state.trash|] == state.trash;
      ghost var restored := actions;
      for i := 0 to |state.trashList|
        invariant actions == restored + PurgeActions(state, state.trashList[..i], now)
        invariant wakes == waked + RestoreWakes(state, state.trash, now)
        invariant queue == old(queue)
      {
        assert Init(state.trashList[..i + 1]) == state.trashList[..i];
        var row := state.trashList[i];
        var held := FindView(state.trash, row.id);
        if row.purgeAfter.Some? && row.purgeAfter.value <= now && (held.None? || held.value.deleted) {
          actions := actions + [PurgeAction(row.id)];
        }
      }
      assert state.trashList[..|state.trashList|] == state.trashList;
    }

    method RestoreOne(id: Id)
      modifies this
      ensures queue == old(queue)
      ensures Due(RestoreBackoff(state, id), now) ==> actions == old(actions) + [RestoreAction(id)] && wakes == old(wakes)
      ensures !Due(RestoreBackoff(state, id), now) ==>
        actions == old(actions) && wakes == old(wakes) + [RestoreBackoff(state, id).value]
    {
      var backoff := Recall(state.memory, TrashKey(id)).nextTry;
      if backoff.Some? && now < backoff.value {
        wakes := wakes + [backoff.value];
        return;
      }
      actions := actions + [RestoreAction(id)];
    }

    /** Spend the budget in board order; true when today's cap cut the queue. */
    method Spend(b: Budget) returns (capped: bool)
      modifies this
      ensures capped <==> Capped(|old(queue)|, b)
      ensures actions == old(actions) + Take(old(queue), Room(b))
      ensures wakes == old(wakes) + SlotWakes(|old(queue)|, b, now)
    {
      var room := if b.remainingToday.None? then b.slots else Min(b.slots, b.remainingToday.value);
      room := Max(room, 0);
      capped := b.remainingToday.Some? && |queue| > b.remainingToday.value;
      if |queue| > room && b.slots <= room {
        wakes := wakes + [now + SLOT_RECHECK];
      }
      actions := actions + Take(queue, room);
    }
  }

  method MakePlan(st: BoardState, now: int, b: Budget, config: Config) returns (plan: PlanResult)
    ensures plan == PlanOf(st, now, b, config)
  {
    var planner := new Planner(st, now, config);
    var views := Arrange(st.views);
    for i := 0 to |views|
      invariant planner.actions == AllActions(st, views[..i], config)
      invariant planner.queue == AllQueue(st, views[..i], config, now)
      invariant planner.wakes == AllWakes(st, views[..i], config, now)
    {
      assert Init(views[..i + 1]) == views[..i];
      planner.Card(views[i]);
    }
    assert views[..|views|] == views;
    planner.TrashPass();
    var capped := planner.Spend(b);
    plan := PlanResult(planner.actions, MinOf(planner.wakes), capped);
  }

  // ---------- membership ----------

  lemma {:induction false} MinOfIsMin(xs: seq<int>, x: int)
    requires x in xs
    ensures MinOf(xs).Some? && MinOf(xs).value <= x
  {
    assert xs == Init(xs) + [Last(xs)];
    if x in Init(xs) {
      MinOfIsMin(Init(xs), x);
    }
  }

  lemma {:induction false} ActionsHave(st: BoardState, vs: seq<View>, config: Config, v: View, a: Action)
    requires v in vs && a in CardActions(st, v, config)
    ensures a in AllActions(st, vs, config)
  {
    assert vs == Init(vs) + [Last(vs)];
    if v in Init(vs) {
      ActionsHave(st, Init(vs), config, v, a);
    }
  }

  lemma {:induction false} ActionsFrom(st: BoardState, vs: seq<View>, config: Config, a: Action) returns (v: View)
    requires a in AllActions(st, vs, config)
    ensures v in vs && a in CardActions(st, v, config)
  {
    assert vs == Init(vs) + [Last(vs)];
    if a in CardActions(st, Last(vs), config) {
      v := Last(vs);
    } else {
      v := ActionsFrom(st, Init(vs), config, a);
    }
  }

  lemma {:induction false} WakesHave(st: BoardState, vs: seq<View>, config: Config, now: int, v: View, t: int)
    requires v in vs && t in CardWakes(st, v, config, now)
    ensures t in AllWakes(st, vs, config, now)
  {
    assert vs == Init(vs) + [Last(vs)];
    if v in Init(vs) {
      WakesHave(st, Init(vs), config, now, v, t);
    }
  }

  lemma {:induction false} RestoresAre(st: BoardState, vs: seq<View>, now: int, a: Action)
    ensures a in RestoreActions(st, vs, now) <==>
            a.RestoreAction? && exists v <- vs :: v.id == a.card && !v.deleted && Due(RestoreBackoff(st, v.id), now)
  {
    if vs != [] {
      assert vs == Init(vs) + [Last(vs)];
      RestoresAre(st, Init(vs), now, a);
    }
  }

  lemma {:induction false} RestoreWakesHave(st: BoardState, vs: seq<View>, now: int, v: View)
    requires v in vs && !v.deleted && !Due(RestoreBackoff(st, v.id), now)
    ensures RestoreBackoff(st, v.id).value in RestoreWakes(st, vs, now)
  {
    assert vs == Init(vs) + [Last(vs)];
    if v in Init(vs) {
      RestoreWakesHave(st, Init(vs), now, v);
    }
  }

  lemma {:induction false} PurgesAre(st: BoardState, rows: seq<TrashRow>, now: int, a: Action)
    ensures a in PurgeActions(st, rows, now) <==>
            a.PurgeAction? && exists r <- rows :: r.id == a.card && PurgeDue(st, r, now)
  {
    if rows != [] {
      assert rows == Init(rows) + [Last(rows)];
      PurgesAre(st, Init(rows), now, a);
    }
  }

  lemma {:induction false} FindViewFinds(vs: seq<View>, id: Id)
    ensures FindView(vs, id).Some? <==> exists v <- vs :: v.id == id
    ensures FindView(vs, id).Some? ==> FindView(vs, id).value in vs && FindView(vs, id).value.id == id
  {
    if vs != [] {
      assert vs == Init(vs) + [Last(vs)];
      FindViewFinds(Init(vs), id);
    }
  }

  lemma FindViewUnique(vs: seq<View>, v: View)
    requires DistinctIds(vs) && v in vs
    ensures FindView(vs, v.id) == Some(v)
  {
    FindViewFinds(vs, v.id);
    var i :| 0 <= i < |vs| && vs[i] == v;
    var j :| 0 <= j < |vs| && vs[j] == FindView(vs, v.id).value;
  }

  // ---------- the start queue ----------

  /** Each queued start stands at the place its card holds among the queueable cards. */
  lemma {:induction false} QueueIs(st: BoardState, vs: seq<View>, config: Config, now: int)
    ensures |AllQueue(st, vs, config, now)| == |Filter(vs, Queueable(st, config, now))|
    ensures forall i | 0 <= i < |AllQueue(st, vs, config, now)| ::
      Queueable(st, config, now)(Filter(vs, Queueable(st, config, now))[i])
      && AllQueue(st, vs, config, now)[i] == StartOf(Filter(vs, Queueable(st, config, now))[i])
  {
    if vs != [] {
      QueueIs(st, Init(vs), config, now);
    }
  }

  function Queueable(st: BoardState, config: Config, now: int): View -> bool {
    (v: View) => WouldQueue(st, v, config, now)
  }

  function StartOf(v: View): Action {
    Start(v.id, Unit(if v.wants.wants.Some? then v.wants.wants.value else BriefRun, v.id))
  }

  lemma TakeIsPrefix(queue: seq<Action>, n: nat)
    ensures |Take(queue, n)| <= n && Take(queue, n) <= queue
    ensures |Take(queue, n)| == n || Take(queue, n) == queue
  {
  }
}

/** What the plan promises: no lost wake-up, starts in board order within the budget, no start for a
    deleted, held or busy card, no trashing of a running card, no restore and purge of one card. */
module PlanProps {
  import opened Seqs
  import opened Ledger
  import opened Order
  import opened Plan

  predicate IsStart(a: Action) { a.Start? }

  // ---------- the shape of a plan ----------

  function Steps(st: BoardState, now: int, config: Config): seq<Action> {
    AllActions(st, Arrange(st.views), config) + RestoreActions(st, st.trash, now) + PurgeActions(st, st.trashList, now)
  }

  function Queue(st: BoardState, now: int, config: Config): seq<Action> {
    AllQueue(st, Arrange(st.views), config, now)
  }

  /** The queueable cards, in board order. */
  function Kept(st: BoardState, now: int, config: Config): seq<View> {
    Filter(Arrange(st.views), Queueable(st, config, now))
  }

  lemma QueueOfKept(st: BoardState, now: int, config: Config)
    ensures |Queue(st, now, config)| == |Kept(st, now, config)|
    ensures forall i | 0 <= i < |Queue(st, now, config)| ::
      Kept(st, now, config)[i] in st.views && WouldQueue(st, Kept(st, now, config)[i], config, now)
      && Queue(st, now, config)[i] == StartOf(Kept(st, now, config)[i])
  {
    hide WouldQueue, Arrange;
    QueueIs(st, Arrange(st.views), config, now);
    FilterMembers(Arrange(st.views), Queueable(st, config, now));
    forall i | 0 <= i < |Queue(st, now, config)| ensures Kept(st, now, config)[i] in st.views {
      ArrangeMembers(st.views, Kept(st, now, config)[i]);
    }
  }

  /** A queueable card stands somewhere in the queue. */
  lemma KeptHas(st: BoardState, now: int, config: Config, v: View) returns (i: nat)
    requires v in st.views && WouldQueue(st, v, config, now)
    ensures i < |Queue(st, now, config)| && i < |Kept(st, now, config)| && Kept(st, now, config)[i] == v && Queue(st, now, config)[i] == StartOf(v)
  {
    hide WouldQueue, Arrange;
    QueueOfKept(st, now, config);
    ArrangeMembers(st.views, v);
    FilterMembers(Arrange(st.views), Queueable(st, config, now));
    var vs := Arrange(st.views);
    var k :| 0 <= k < |vs| && vs[k] == v;
    assert Queueable(st, config, now)(vs[k]);
    i :| 0 <= i < |Kept(st, now, config)| && Kept(st, now, config)[i] == v;
  }

  lemma {:induction false} NoStartsInActions(st: BoardState, vs: seq<View>, config: Config)
    ensures Filter(AllActions(st, vs, config), IsStart) == []
  {
    hide Filter, CardActions;
    if vs == [] {
      FilterNone([], IsStart);
    } else {
      var acts := CardActions(st, Last(vs), config);
      NoStartsInActions(st, Init(vs), config);
      FilterAppend(AllActions(st, Init(vs), config), acts, IsStart);
      forall a | a in acts ensures !IsStart(a) { CardActionsFor(st, Last(vs), config, a); }
      FilterNone(acts, IsStart);
    }
  }

  /** A card's actions other than starts, and what each takes. */
  lemma CardActionsFor(st: BoardState, v: View, config: Config, a: Action)
    requires a in CardActions(st, v, config)
    ensures a.card == v.id && !IsStart(a)
    ensures a.TrashAction? ==> v.deleted && !HasActive(st, v.id)
    ensures a.HoldAction? ==> Considered(st, v)
  {
  }

  lemma NoStartsInSteps(st: BoardState, now: int, config: Config)
    ensures Filter(Steps(st, now, config), IsStart) == []
  {
    var acts, res, pur := AllActions(st, Arrange(st.views), config), RestoreActions(st, st.trash, now), PurgeActions(st, st.trashList, now);
    NoStartsInActions(st, Arrange(st.views), config);
    forall a | a in res ensures !IsStart(a) { RestoresAre(st, st.trash, now, a); }
    forall a | a in pur ensures !IsStart(a) { PurgesAre(st, st.trashList, now, a); }
    FilterNone(res, IsStart);
    FilterNone(pur, IsStart);
    FilterAppend(acts + res, pur, IsStart);
    FilterAppend(acts, res, IsStart);
  }

  lemma QueueIsStarts(st: BoardState, now: int, config: Config)
    ensures forall a <- Queue(st, now, config) :: IsStart(a)
  {
    QueueIs(st, Arrange(st.views), config, now);
  }

  lemma PlanActions(st: BoardState, now: int, b: Budget, config: Config)
    ensures PlanOf(st, now, b, config).actions == Steps(st, now, config) + Take(Queue(st, now, config), Room(b))
  {
  }

  /** The starts of a plan are the head of the queue, as long as the budget allows. */
  lemma StartsAreTheHead(st: BoardState, now: int, b: Budget, config: Config)
    ensures Filter(PlanOf(st, now, b, config).actions, IsStart) == Take(Queue(st, now, config), Room(b))
    ensures PlanOf(st, now, b, config).actions == Steps(st, now, config) + Take(Queue(st, now, config), Room(b))
  {
    hide PlanOf, Queue, Steps, Filter, Room;
    PlanActions(st, now, b, config);
    var head := Take(Queue(st, now, config), Room(b));
    NoStartsInSteps(st, now, config);
    QueueIsStarts(st, now, config);
    FilterAll(head, IsStart);
    FilterAppend(Steps(st, now, config), head, IsStart);
    assert [] + head == head;
  }

  // ---------- safety ----------

  /** A started card is undeleted, wants that run, has no unit active, is not quarantined, and its
      cooldown and backoff are over. */
  lemma StartIsSafe(st: BoardState, now: int, b: Budget, config: Config, a: Action) returns (v: View)
    requires a in PlanOf(st, now, b, config).actions && a.Start?
    ensures v in st.views && v.id == a.card && v.wants.wants.Some? && a.unit == Unit(v.wants.wants.value, v.id)
    ensures !v.deleted && !HasActive(st, v.id)
    ensures Quarantine(v, Recall(st.memory, CardKey(v.id)), config).None?
    ensures Due(ReadyAt(v, Recall(st.memory, CardKey(v.id)), config), now)
  {
    var i := StartAt(st, now, b, config, a);
    QueueOfKept(st, now, config);
    v := Kept(st, now, config)[i];
  }

  /** Where a plan's start stands in the queue. */
  lemma StartAt(st: BoardState, now: int, b: Budget, config: Config, a: Action) returns (i: nat)
    requires a in PlanOf(st, now, b, config).actions && a.Start?
    ensures i < |Take(Queue(st, now, config), Room(b))| <= |Queue(st, now, config)|
    ensures Queue(st, now, config)[i] == a
  {
    hide PlanOf, Queue, Room;
    StartsAreTheHead(st, now, b, config);
    var actions := PlanOf(st, now, b, config).actions;
    FilterMembers(actions, IsStart);
    var k :| 0 <= k < |actions| && actions[k] == a;
    assert IsStart(actions[k]);
    i :| 0 <= i < |Take(Queue(st, now, config), Room(b))| && Take(Queue(st, now, config), Room(b))[i] == a;
  }

  /** The plan starts at most the free slots, and at most what is left of today. */
  lemma StartsWithinBudget(st: BoardState, now: int, b: Budget, config: Config)
    ensures |Filter(PlanOf(st, now, b, config).actions, IsStart)| <= Room(b)
  {
    StartsAreTheHead(st, now, b, config);
    TakeIsPrefix(Queue(st, now, config), Room(b));
  }

  function DifferentIds(): (View, View) -> bool {
    (v: View, w: View) => v.id != w.id
  }

  function NotAhead(): (View, View) -> bool {
    (v: View, w: View) => !Before(KeyOf(w), KeyOf(v))
  }

  lemma ArrangeDistinct(vs: seq<View>)
    requires DistinctIds(vs)
    ensures DistinctIds(Arrange(vs))
  {
    hide Arrange;
    var r := Arrange(vs);
    forall i, j | 0 <= i < j < |r| ensures r[i].id != r[j].id {
      assert r[i] in multiset(r) && r[j] in multiset(r);
      assert r[i] in vs && r[j] in vs;
      FindViewUnique(vs, r[i]);
      FindViewUnique(vs, r[j]);
      DistinctOnce(vs, r[i]);
      if r[i] == r[j] {
        TwiceIn(r, i, j);
      }
    }
  }

  lemma TwiceIn<T>(xs: seq<T>, i: nat, j: nat)
    requires i < j < |xs| && xs[i] == xs[j]
    ensures multiset(xs)[xs[i]] >= 2
  {
    assert xs == xs[..j] + [xs[j]] + xs[j + 1..];
    assert xs[..j][i] == xs[i];
  }

  lemma {:induction false} DistinctOnce(vs: seq<View>, v: View)
    requires DistinctIds(vs)
    ensures multiset(vs)[v] <= 1
  {
    if vs != [] {
      DistinctOnce(Init(vs), v);
      assert vs == Init(vs) + [Last(vs)];
      if v == Last(vs) {
        assert v !in Init(vs);
      }
    }
  }

  /** No card is started twice by one plan. */
  lemma StartsAreDistinct(st: BoardState, now: int, b: Budget, config: Config, i: nat, j: nat)
    requires DistinctIds(st.views) && i < j < |Take(Queue(st, now, config), Room(b))|
    ensures Take(Queue(st, now, config), Room(b))[i].card != Take(Queue(st, now, config), Room(b))[j].card
  {
    hide WouldQueue, Queue, Kept;
    QueueOfKept(st, now, config);
    KeptDistinct(st, now, config, i, j);
  }

  lemma KeptDistinct(st: BoardState, now: int, config: Config, i: nat, j: nat)
    requires DistinctIds(st.views) && i < j < |Kept(st, now, config)|
    ensures Kept(st, now, config)[i].id != Kept(st, now, config)[j].id
    ensures !Before(KeyOf(Kept(st, now, config)[j]), KeyOf(Kept(st, now, config)[i]))
  {
    hide WouldQueue, Arrange, Before;
    var vs := Arrange(st.views);
    ArrangeDistinct(st.views);
    FilterPairs(vs, Queueable(st, config, now), DifferentIds());
    ArrangeArranged(st.views);
    FilterPairs(vs, Queueable(st, config, now), NotAhead());
    assert DifferentIds()(Kept(st, now, config)[i], Kept(st, now, config)[j]);
    assert NotAhead()(Kept(st, now, config)[i], Kept(st, now, config)[j]);
  }

  /** Starts spend the budget in board order: a queueable card left out never stands before one
      that is started. */
  lemma StartsInBoardOrder(st: BoardState, now: int, b: Budget, config: Config, started: View, left: View)
    requires started in st.views && StartOf(started) in PlanOf(st, now, b, config).actions
    requires DistinctIds(st.views)
    requires left in st.views && WouldQueue(st, left, config, now)
    requires StartOf(left) !in PlanOf(st, now, b, config).actions
    ensures Before(KeyOf(started), KeyOf(left))
  {
    hide WouldQueue, Queue, Kept, PlanOf, Room, Before;
    var i := StartAt(st, now, b, config, StartOf(started));
    QueueOfKept(st, now, config);
    assert Kept(st, now, config)[i].id == started.id;
    FindViewUnique(st.views, Kept(st, now, config)[i]);
    FindViewUnique(st.views, started);
    var j := KeptHas(st, now, config, left);
    var head := Take(Queue(st, now, config), Room(b));
    assert j < |head| ==> StartOf(left) in head;
    StartsAreTheHead(st, now, b, config);
    KeptDistinct(st, now, config, i, j);
    BeforeTotal(KeyOf(started), KeyOf(left));
  }

  /** Which card an action other than a start is for, and why. */
  lemma StepIsFor(st: BoardState, now: int, config: Config, a: Action) returns (v: View)
    requires a in Steps(st, now, config) && (a.HoldAction? || a.TrashAction? || a.Stop?)
    ensures v in st.views && v.id == a.card && a in CardActions(st, v, config)
  {
    hide AllActions, RestoreActions, PurgeActions, CardActions, Arrange;
    RestoresAre(st, st.trash, now, a);
    PurgesAre(st, st.trashList, now, a);
    v := ActionsFrom(st, Arrange(st.views), config, a);
    CardActionsFor(st, v, config, a);
    ArrangeMembers(st.views, v);
  }

  lemma StepOfPlan(st: BoardState, now: int, b: Budget, config: Config, a: Action)
    requires a in PlanOf(st, now, b, config).actions && !a.Start?
    ensures a in Steps(st, now, config)
  {
    StartsAreTheHead(st, now, b, config);
    QueueIs(st, Arrange(st.views), config, now);
    TakeIsPrefix(Queue(st, now, config), Room(b));
  }

  /** A plan trashes a card only when it is deleted and neither of its units is active. */
  lemma TrashedIsIdle(st: BoardState, now: int, b: Budget, config: Config, a: Action) returns (v: View)
    requires a in PlanOf(st, now, b, config).actions && a.TrashAction?
    ensures v in st.views && v.id == a.card && v.deleted
    ensures Unit(BriefRun, v.id) !in st.active && Unit(ResearchRun, v.id) !in st.active
  {
    hide PlanOf, Steps, CardActions;
    StepOfPlan(st, now, b, config, a);
    v := StepIsFor(st, now, config, a);
    CardActionsFor(st, v, config, a);
  }

  /** A card that wants nothing is neither started nor held. */
  lemma UnwantedIsLeft(st: BoardState, now: int, b: Budget, config: Config, v: View, a: Action)
    requires DistinctIds(st.views) && v in st.views && v.wants.wants.None?
    requires a in PlanOf(st, now, b, config).actions && a.card == v.id
    ensures !a.Start? && !a.HoldAction?
  {
    hide PlanOf, Steps, CardActions;
    FindViewUnique(st.views, v);
    if a.Start? {
      var s := StartIsSafe(st, now, b, config, a);
      FindViewUnique(st.views, s);
    } else if a.HoldAction? {
      StepOfPlan(st, now, b, config, a);
      var s := StepIsFor(st, now, config, a);
      CardActionsFor(st, s, config, a);
      FindViewUnique(st.views, s);
    }
  }

  /** A deleted card with a unit active is stopped: every active unit of it. */
  lemma DeletedIsStopped(st: BoardState, now: int, b: Budget, config: Config, v: View, u: Unit)
    requires v in st.views && v.deleted && u.card == v.id && u in st.active
    ensures Stop(v.id, u) in PlanOf(st, now, b, config).actions
  {
    assert u == Unit(u.purpose, u.card);
    assert u.purpose.BriefRun? || u.purpose.ResearchRun?;
    assert Stop(v.id, u) in CardActions(st, v, config);
    ArrangeMembers(st.views, v);
    ActionsHave(st, Arrange(st.views), config, v, Stop(v.id, u));
    StartsAreTheHead(st, now, b, config);
  }

  /** Which row of the trash a purge is for. */
  lemma PurgeIsFor(st: BoardState, now: int, b: Budget, config: Config, id: Id) returns (r: TrashRow)
    requires PurgeAction(id) in PlanOf(st, now, b, config).actions
    ensures r in st.trashList && r.id == id && PurgeDue(st, r, now)
  {
    hide PlanOf, PurgeDue;
    StepOfPlan(st, now, b, config, PurgeAction(id));
    NotOfCards(st, Arrange(st.views), config, PurgeAction(id));
    RestoresAre(st, st.trash, now, PurgeAction(id));
    PurgesAre(st, st.trashList, now, PurgeAction(id));
    r :| r in st.trashList && r.id == id && PurgeDue(st, r, now);
  }

  /** Never both a restore and a purge of one card; and a purge only past the retention. */
  lemma RestoredOrPurged(st: BoardState, now: int, b: Budget, config: Config, id: Id)
    requires DistinctIds(st.trash)
    ensures !(RestoreAction(id) in PlanOf(st, now, b, config).actions && PurgeAction(id) in PlanOf(st, now, b, config).actions)
    ensures PurgeAction(id) in PlanOf(st, now, b, config).actions ==>
            exists r <- st.trashList :: r.id == id && r.purgeAfter.Some? && r.purgeAfter.value <= now
  {
    var actions := PlanOf(st, now, b, config).actions;
    if RestoreAction(id) in actions {
      StepOfPlan(st, now, b, config, RestoreAction(id));
      NotOfCards(st, Arrange(st.views), config, RestoreAction(id));
      RestoresAre(st, st.trash, now, RestoreAction(id));
      PurgesAre(st, st.trashList, now, RestoreAction(id));
      var v :| v in st.trash && v.id == id && !v.deleted;
      FindViewUnique(st.trash, v);
    }
    if PurgeAction(id) in actions {
      StepOfPlan(st, now, b, config, PurgeAction(id));
      NotOfCards(st, Arrange(st.views), config, PurgeAction(id));
      RestoresAre(st, st.trash, now, PurgeAction(id));
      PurgesAre(st, st.trashList, now, PurgeAction(id));
    }
  }

  lemma NotOfCards(st: BoardState, vs: seq<View>, config: Config, a: Action)
    requires a.RestoreAction? || a.PurgeAction?
    ensures a !in AllActions(st, vs, config)
  {
    if a in AllActions(st, vs, config) {
      var v := ActionsFrom(st, vs, config, a);
    }
  }

  // ---------- no lost wake-up ----------

  lemma WakeCovers(st: BoardState, now: int, b: Budget, config: Config, t: int)
    requires t in AllWakes(st, Arrange(st.views), config, now)
          || t in RestoreWakes(st, st.trash, now)
          || t in SlotWakes(|Queue(st, now, config)|, b, now)
    ensures PlanOf(st, now, b, config).wakeAt.Some? && PlanOf(st, now, b, config).wakeAt.value <= t
  {
    MinOfIsMin(AllWakes(st, Arrange(st.views), config, now) + RestoreWakes(st, st.trash, now)
               + SlotWakes(|Queue(st, now, config)|, b, now), t);
  }

  ghost predicate WakesBy(p: PlanResult, t: int) {
    p.wakeAt.Some? && p.wakeAt.value <= t
  }

  /** A queue the budget cuts wakes the loop within the recheck, or the plan is capped. */
  lemma CutQueueWakes(st: BoardState, now: int, b: Budget, config: Config)
    requires |Queue(st, now, config)| > Room(b)
    ensures PlanOf(st, now, b, config).capped || WakesBy(PlanOf(st, now, b, config), now + SLOT_RECHECK)
  {
    if b.slots <= Room(b) {
      WakeCovers(st, now, b, config, now + SLOT_RECHECK);
    }
  }

  /** Every undeleted card that wants a run and has no unit active is held, or started, or cut by a
      budget that wakes the loop, or the loop wakes no later than the same state would queue it. */
  lemma NoLostWakeUp(st: BoardState, now: int, b: Budget, config: Config, v: View)
    requires v in st.views && Considered(st, v)
    ensures var plan := PlanOf(st, now, b, config);
            var reason := Quarantine(v, Recall(st.memory, CardKey(v.id)), config);
            && (reason.Some? ==> HoldAction(v.id, reason.value) in plan.actions)
            && (reason.None? && WouldQueue(st, v, config, now) ==>
                  StartOf(v) in plan.actions || plan.capped || WakesBy(plan, now + SLOT_RECHECK))
            && (reason.None? && !WouldQueue(st, v, config, now) ==>
                  (exists t :: WouldQueue(st, v, config, t))
                  && forall t | WouldQueue(st, v, config, t) :: now < t && WakesBy(plan, t))
  {
    hide PlanOf, WakesBy, Quarantine;
    var e := Recall(st.memory, CardKey(v.id));
    if Quarantine(v, e, config).Some? {
      HeldWhenQuarantined(st, now, b, config, v);
    } else if WouldQueue(st, v, config, now) {
      StartedOrCut(st, now, b, config, v);
    } else {
      WakesWhenReady(st, now, b, config, v);
    }
  }

  lemma HeldWhenQuarantined(st: BoardState, now: int, b: Budget, config: Config, v: View)
    requires v in st.views && Considered(st, v)
    ensures var reason := Quarantine(v, Recall(st.memory, CardKey(v.id)), config);
            reason.Some? ==> HoldAction(v.id, reason.value) in PlanOf(st, now, b, config).actions
  {
    var reason := Quarantine(v, Recall(st.memory, CardKey(v.id)), config);
    ArrangeMembers(st.views, v);
    StartsAreTheHead(st, now, b, config);
    if reason.Some? {
      ActionsHave(st, Arrange(st.views), config, v, HoldAction(v.id, reason.value));
    }
  }

  lemma StartedOrCut(st: BoardState, now: int, b: Budget, config: Config, v: View)
    requires v in st.views && WouldQueue(st, v, config, now)
    ensures StartOf(v) in PlanOf(st, now, b, config).actions || PlanOf(st, now, b, config).capped
         || WakesBy(PlanOf(st, now, b, config), now + SLOT_RECHECK)
  {
    hide PlanOf, WouldQueue, Queue, Kept, WakesBy;
    var i := KeptHas(st, now, config, v);
    StartsAreTheHead(st, now, b, config);
    if |Queue(st, now, config)| > Room(b) {
      CutQueueWakes(st, now, b, config);
    } else {
      TakeIsPrefix(Queue(st, now, config), Room(b));
      assert Take(Queue(st, now, config), Room(b))[i] == StartOf(v);
    }
  }

  lemma WakesWhenReady(st: BoardState, now: int, b: Budget, config: Config, v: View)
    requires v in st.views && Considered(st, v) && !WouldQueue(st, v, config, now)
    requires Quarantine(v, Recall(st.memory, CardKey(v.id)), config).None?
    ensures exists t :: WouldQueue(st, v, config, t)
    ensures forall t | WouldQueue(st, v, config, t) :: now < t && WakesBy(PlanOf(st, now, b, config), t)
  {
    hide PlanOf, Arrange;
    var ready := ReadyAt(v, Recall(st.memory, CardKey(v.id)), config);
    assert WouldQueue(st, v, config, ready.value);
    ArrangeMembers(st.views, v);
    WakesHave(st, Arrange(st.views), config, now, v, ready.value);
    WakeCovers(st, now, b, config, ready.value);
  }

  /** A scheduled card's due time wakes the loop. */
  lemma ScheduledWakes(st: BoardState, now: int, b: Budget, config: Config, v: View)
    requires v in st.views && !v.deleted && v.scheduled && v.dueAt.Some?
    ensures WakesBy(PlanOf(st, now, b, config), v.dueAt.value)
  {
    ArrangeMembers(st.views, v);
    WakesHave(st, Arrange(st.views), config, now, v, v.dueAt.value);
    WakeCovers(st, now, b, config, v.dueAt.value);
  }

  /** A pending restore is planned now, or the loop wakes when its backoff ends. */
  lemma RestoreWakesUp(st: BoardState, now: int, b: Budget, config: Config, v: View)
    requires v in st.trash && !v.deleted
    ensures RestoreAction(v.id) in PlanOf(st, now, b, config).actions
         || (RestoreBackoff(st, v.id).Some? && now < RestoreBackoff(st, v.id).value
             && WakesBy(PlanOf(st, now, b, config), RestoreBackoff(st, v.id).value))
  {
    if Due(RestoreBackoff(st, v.id), now) {
      RestoresAre(st, st.trash, now, RestoreAction(v.id));
      StartsAreTheHead(st, now, b, config);
    } else {
      RestoreWakesHave(st, st.trash, now, v);
      WakeCovers(st, now, b, config, RestoreBackoff(st, v.id).value);
    }
  }
}

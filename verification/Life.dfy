/** One card's life as a transition system: every verb that may append to its ledger, every gated
    decision, every receipt landing, each at its own instant.  A refused act changes nothing. */
module Life {
  import opened Seqs
  import opened Ledger

  /** Everything a card's column depends on; `decisions` is its own part of the stream. */
  datatype Card = Card(id: Id, fields: Fields, events: seq<Event>, decisions: seq<Decision>,
                       receipts: map<RunId, Receipt>)

  /** When an act happens, and what canonical main holds for the card then. */
  datatype Moment = Moment(clock: Clock, main: Option<Hash>, timeout: int)

  datatype Act =
    | WriteBrief(actor: Actor, hash: Hash)
    | WriteNote(actor: Actor, note: Option<NoteKind>)
    | HoldCard(reason: string)
    | EditCard(actor: Actor, changes: Changes)
    | PickCard(runId: RunId, purpose: Purpose)
    | Decide(verb: Verb, briefHash: Option<Hash>, pageHash: Option<Hash>, inTrash: bool)
    | Settle(receipts: map<RunId, Receipt>)

  datatype Step = Step(act: Act, at: Moment)

  /** The view the gate reads, with the canonical-main join. */
  function Shown(c: Card, at: Moment): View {
    DeriveMine(c.id, c.fields, c.events, c.decisions, c.receipts, at.main, at.clock, at.timeout)
  }

  /** The view the verbs and the planner read, without the join. */
  function Fresh(c: Card, at: Moment): View {
    Shown(c, at.(main := None))
  }

  function BriefColumns(actor: Actor): set<Column> {
    if actor.Run? || actor.Buzz? then {Backlog, Refine} else Briefable
  }

  function RunIdOf(actor: Actor): Option<RunId> {
    if actor.Run? then Some(actor.run) else None
  }

  function WrittenBy(run: RunId): Event -> bool {
    (e: Event) => e.BriefEvent? && e.run == Some(run)
  }

  function ReturnedText(h: Hash): Decision -> bool {
    (d: Decision) => d.kind.BriefReturned? && d.briefHash == Some(h)
  }

  function HasRunId(run: RunId): CardRun -> bool {
    (r: CardRun) => r.runId == run
  }

  function Names(ch: Changes): set<FieldName> {
    (if ch.title.Some? then {TitleField} else {}) + (if ch.scope.Some? then {ScopeField} else {})
    + (if ch.deadline.Some? then {DeadlineField} else {}) + (if ch.researchOn.Some? then {ResearchOnField} else {})
    + (if ch.priority.Some? then {PriorityField} else {}) + (if ch.tags.Some? then {TagsField} else {})
  }

  predicate DatesAgree(f: Fields) {
    f.researchOn.Some? && f.deadline.Some? ==> f.researchOn.value.day <= f.deadline.value
  }

  predicate NoteAllowed(actor: Actor, note: Option<NoteKind>) {
    !actor.Reactor? && (note.Some? ==> (note.value.Questions? <==> actor.Run?))
  }

  function DecisionOf(verb: Verb): DecisionKind {
    match verb
    case ApproveBrief => BriefApproved
    case ReturnBrief => BriefReturned
    case Approve => Approved
    case RequestChanges => ChangesRequested
    case Reject => Rejected
    case Block => BlockedByDave
    case Unblock => Unblocked
    case Delete => Deleted
    case Restore => Restored
  }

  predicate BriefHashed(verb: Verb) { verb.ApproveBrief? || verb.ReturnBrief? }

  /** The gate: a move is offered in the shown column on a card not deleted, and a brief verdict
      names the brief now shown; `restore` is for a trashed or deleted card. */
  predicate GateAccepts(shown: View, verb: Verb, briefHash: Option<Hash>, inTrash: bool) {
    if verb.Restore? then inTrash || shown.deleted
    else !inTrash && !shown.deleted && verb in shown.moves
         && (BriefHashed(verb) ==> briefHash.Some? && briefHash == shown.brief.hash)
  }

  /** Receipts appear and may later turn failed; otherwise an outcome stands. */
  predicate Settles(before: map<RunId, Receipt>, after: map<RunId, Receipt>) {
    forall run | run in before && before[run].outcome.Some? ::
      run in after && (after[run] == before[run] || after[run].outcome == Some(Failed))
  }

  predicate MayBrief(c: Card, column: Column, shown: Option<Hash>, actor: Actor, hash: Hash) {
    && !actor.Reactor?
    && (actor.Run? ==> !Any(c.events, WrittenBy(actor.run)))
    && column in BriefColumns(actor)
    && !Any(c.decisions, ReturnedText(hash))
    && shown != Some(hash)
  }

  predicate MayHold(cause: Option<Cause>) {
    !(cause.Some? && cause.value.Held?)
  }

  /** The entries of an edit that would change something. */
  function Diff(f: Fields, ch: Changes): Changes {
    Changes(if ch.title == Some(f.title) then None else ch.title,
            if ch.scope == Some(f.scope) then None else ch.scope,
            if ch.deadline == Some(f.deadline) then None else ch.deadline,
            if ch.researchOn == Some(f.researchOn) then None else ch.researchOn,
            if ch.priority == Some(f.priority) then None else ch.priority,
            if ch.tags == Some(f.tags) then None else ch.tags)
  }

  /** Every entry would change something, and there is one. */
  predicate MayEdit(editable: set<FieldName>, fields: Fields, actor: Actor, changes: Changes) {
    && (actor.Dave? || actor.MacClaude?)
    && Names(changes) != {} && changes == Diff(fields, changes)
    && Names(changes) <= editable
    && DatesAgree(ApplyChanges(fields, changes))
  }

  predicate MayPick(wants: Option<Purpose>, runs: seq<CardRun>, runId: RunId, purpose: Purpose) {
    wants == Some(purpose) && !Any(runs, HasRunId(runId))
  }

  /** `blockedCause` is set only on a Blocked card, so the hold's guard reads it alone. */
  ghost predicate Allowed(c: Card, act: Act, at: Moment) {
    match act
    case WriteBrief(actor, hash) => MayBrief(c, Fresh(c, at).column, Fresh(c, at).brief.hash, actor, hash)
    case WriteNote(actor, note) => NoteAllowed(actor, note)
    case HoldCard(_) => MayHold(Fresh(c, at).blockedCause)
    case EditCard(actor, changes) => MayEdit(Fresh(c, at).editable, Fresh(c, at).fields, actor, changes)
    case PickCard(runId, purpose) => MayPick(Fresh(c, at).wants.wants, Fresh(c, at).runs, runId, purpose)
    case Decide(verb, briefHash, _, inTrash) => GateAccepts(Shown(c, at), verb, briefHash, inTrash)
    case Settle(receipts) => Settles(c.receipts, receipts)
  }

  function AppendEvent(c: Card, e: Event): Card {
    c.(events := c.events + [e])
  }

  function AppendDecision(c: Card, d: Decision): Card {
    c.(decisions := c.decisions + [d])
  }

  function EventOf(c: Card, act: Act, at: Moment): Event
    requires !act.Decide? && !act.Settle?
  {
    var now := at.clock.now;
    match act
    case WriteBrief(actor, hash) => BriefEvent(now, actor, hash, RunIdOf(actor))
    case WriteNote(actor, note) => NoteEvent(now, actor, note)
    case HoldCard(reason) => HeldEvent(now, Reactor, reason)
    case EditCard(actor, changes) => EditedEvent(now, actor, changes)
    case PickCard(runId, purpose) => PickedEvent(now, Run(runId), runId, Fresh(c, at).brief.hash, purpose)
  }

  function DecisionFrom(c: Card, act: Act, at: Moment): Decision
    requires act.Decide?
  {
    Decision(at.clock.now, DecisionOf(act.verb), c.id,
             if BriefHashed(act.verb) then act.briefHash else None,
             if act.verb.Approve? then act.pageHash else None)
  }

  function Next(c: Card, act: Act, at: Moment): Card {
    match act
    case Decide(_, _, _, _) => AppendDecision(c, DecisionFrom(c, act, at))
    case Settle(receipts) => c.(receipts := receipts)
    case _ => AppendEvent(c, EventOf(c, act, at))
  }

  ghost function Perform(c: Card, s: Step): Card {
    if Allowed(c, s.act, s.at) then Next(c, s.act, s.at) else c
  }

  ghost function Exec(c: Card, steps: seq<Step>): Card {
    if steps == [] then c else Perform(Exec(c, Init(steps)), Last(steps))
  }

  /** A card as `create` leaves it.  Decisions of an earlier card under its id, since purged, may
      still be on record. */
  ghost predicate Born(c: Card, at: int) {
    && |c.events| == 2
    && Sorted(c.decisions, DecisionTs) && (forall i | 0 <= i < |c.decisions| :: c.decisions[i].ts <= at)
    && c.events[0].CreatedEvent? && c.events[0].ts == at
    && c.events[1].BriefEvent? && c.events[1].ts == at && c.events[1].run.None?
    && c.events[0].actor == c.events[1].actor && IsHuman(c.events[0].actor)
  }

  /** The clock never goes back. */
  ghost predicate NeverBack(start: int, steps: seq<Step>) {
    && (forall i | 0 <= i < |steps| :: start <= steps[i].at.clock.now)
    && (forall i, j | 0 <= i < j < |steps| :: steps[i].at.clock.now <= steps[j].at.clock.now)
  }

  /** The clock moves between any two steps. */
  ghost predicate Rising(start: int, steps: seq<Step>) {
    && (forall i | 0 <= i < |steps| :: start < steps[i].at.clock.now)
    && (forall i, j | 0 <= i < j < |steps| :: steps[i].at.clock.now < steps[j].at.clock.now)
  }

  lemma RisingNeverBack(start: int, steps: seq<Step>)
    requires Rising(start, steps)
    ensures NeverBack(start, steps)
  {
  }

  function EndOf(start: int, steps: seq<Step>): int {
    if steps == [] then start else Last(steps).at.clock.now
  }

  lemma RisingSnoc(start: int, steps: seq<Step>, s: Step)
    requires Rising(start, steps) && EndOf(start, steps) < s.at.clock.now
    ensures Rising(start, steps + [s])
  {
    forall i | 0 <= i < |steps| ensures steps[i].at.clock.now < s.at.clock.now {
      assert i < |steps| - 1 ==> steps[i].at.clock.now < steps[|steps| - 1].at.clock.now;
    }
  }

  /** The ledger and the stream stand in time order, none of it in the future. */
  ghost predicate InOrder(c: Card, now: int) {
    && Sorted(c.events, EventTs)
    && Sorted(c.decisions, DecisionTs)
    && (forall i | 0 <= i < |c.events| :: c.events[i].ts <= now)
    && (forall i | 0 <= i < |c.decisions| :: c.decisions[i].ts <= now)
  }

  lemma AppendEventInOrder(c: Card, e: Event, now: int)
    requires InOrder(c, now) && now <= e.ts
    ensures InOrder(AppendEvent(c, e), e.ts)
  {
  }

  lemma AppendDecisionInOrder(c: Card, d: Decision, now: int)
    requires InOrder(c, now) && now <= d.ts
    ensures InOrder(AppendDecision(c, d), d.ts)
  {
  }

  lemma NextInOrder(c: Card, act: Act, at: Moment, now: int)
    requires InOrder(c, now) && now <= at.clock.now
    ensures InOrder(Next(c, act, at), at.clock.now)
  {
    if act.Decide? {
      AppendDecisionInOrder(c, DecisionFrom(c, act, at), now);
    } else if !act.Settle? {
      AppendEventInOrder(c, EventOf(c, act, at), now);
    }
  }

  lemma PerformInOrder(c: Card, s: Step, now: int)
    requires InOrder(c, now) && now <= s.at.clock.now
    ensures InOrder(Perform(c, s), s.at.clock.now)
  {
    hide Allowed, Next;
    if Perform(c, s) != c {
      NextInOrder(c, s.act, s.at, now);
    }
  }

  /** On every reachable card the sort that opens each derivation is the identity. */
  lemma {:induction false} ReachableInOrder(c: Card, start: int, steps: seq<Step>)
    requires InOrder(c, start) && NeverBack(start, steps)
    ensures InOrder(Exec(c, steps), EndOf(start, steps))
    ensures Ordered(Exec(c, steps).events, EventTs) == Exec(c, steps).events
    ensures Ordered(Exec(c, steps).decisions, DecisionTs) == Exec(c, steps).decisions
  {
    hide Allowed, Next;
    if steps != [] {
      ReachableInOrder(c, start, Init(steps));
      PerformInOrder(Exec(c, Init(steps)), Last(steps), EndOf(start, Init(steps)));
    }
    OrderedIdentity(Exec(c, steps).events, EventTs);
    OrderedIdentity(Exec(c, steps).decisions, DecisionTs);
  }

  lemma BornInOrder(c: Card, at: int)
    requires Born(c, at)
    ensures InOrder(c, at)
  {
  }

  // ---------- what a view says about the derivation behind it ----------

  /** In order, the latest row of a kind is the last of that kind. */
  lemma LatestInOrder(ds: seq<Decision>, p: Decision -> bool)
    requires Sorted(ds, DecisionTs)
    ensures Latest(Filter(ds, p)) == LastOption(Filter(ds, p))
    ensures Ordered(Filter(ds, p), DecisionTs) == Filter(ds, p)
  {
    FilterSorted(ds, DecisionTs, p);
    OrderedIdentity(Filter(ds, p), DecisionTs);
  }

  lemma FactsInOrder(c: Card, now: int)
    requires InOrder(c, now)
    ensures FactsOf(c.fields, c.events, c.decisions, c.receipts)
         == Facts(FieldsAfter(c.fields, c.events), BriefOrdered(c.events, c.decisions),
                  RunsIn(c.events, c.receipts), HoldTriggers(c.events))
  {
    OrderedIdentity(c.events, EventTs);
  }

  function FactsAt(c: Card): Facts {
    FactsOf(c.fields, c.events, c.decisions, c.receipts)
  }

  /** What a card that wants a run must look like. */
  lemma WantsMeans(c: Card, at: Moment)
    ensures Shown(c, at).wants.wants.Some? ==>
      var column := Shown(c, at).column;
      && !IsRejected(c.decisions)
      && CardBlock(FactsAt(c), c.decisions, at.clock, at.timeout).None?
      && CardFlow(FactsAt(c), c.decisions, at.clock, at.timeout).column == column
      && (Shown(c, at).wants.wants.value.ResearchRun? <==> column.Todo?)
      && (Shown(c, at).wants.wants.value.BriefRun? <==> column.Backlog? || column.Refine?)
      && Deletion(c.decisions).None?
  {
  }

  /** What the pick guard says. */
  lemma PickMeans(c: Card, act: Act, at: Moment)
    requires act.PickCard? && Allowed(c, act, at)
    ensures Fresh(c, at).wants.wants == Some(act.purpose)
    ensures !Any(RunsIn(Ordered(c.events, EventTs), c.receipts), HasRunId(act.runId))
    ensures Next(c, act, at)
         == AppendEvent(c, PickedEvent(at.clock.now, Run(act.runId), act.runId,
                                       BriefOrdered(Ordered(c.events, EventTs), c.decisions).hash, act.purpose))
  {
  }

  /** A research pick is made from Todo, where an approved brief stands. */
  lemma ResearchPickMeans(c: Card, act: Act, at: Moment)
    requires act.PickCard? && act.purpose.ResearchRun? && Allowed(c, act, at)
    ensures CardFlow(FactsAt(c), c.decisions, at.clock, at.timeout).column.Todo?
  {
    PickMeans(c, act, at);
    WantsMeans(c, at.(main := None));
  }

  /** A scope edit needs a briefable column and a card never researched. */
  lemma ScopeEditMeans(c: Card, act: Act, at: Moment)
    requires act.EditCard? && Allowed(c, act, at) && act.changes.scope.Some?
    ensures Fresh(c, at).column in Briefable && !Any(Fresh(c, at).runs, IsResearch)
  {
    assert ScopeField in Names(act.changes);
    ViewEditable(c, at);
    ScopeEditable(Fresh(c, at).column, Any(Fresh(c, at).runs, IsResearch));
  }

  lemma ViewEditable(c: Card, at: Moment)
    ensures Fresh(c, at).editable == EditableFields(Fresh(c, at).column, Any(Fresh(c, at).runs, IsResearch))
  {
  }

  /** A live trigger blocks whatever its kind. */
  lemma BlockedByTrigger(ds: seq<Decision>, runs: seq<CardRun>, recorded: set<Hash>, fields: Fields, today: int,
                         landing: bool, holds: seq<Trigger>, i: nat)
    requires i < |Triggers(ds, runs, recorded, fields, today, landing, holds)|
    requires LiveAfter(SinceUnblock(ds))(Triggers(ds, runs, recorded, fields, today, landing, holds)[i])
    ensures Blocks(ds, runs, recorded, fields, today, landing, holds).Some?
  {
    FilterMembers(Triggers(ds, runs, recorded, fields, today, landing, holds), LiveAfter(SinceUnblock(ds)));
  }

  lemma {:induction false} SinceUnblockIsMax(ds: seq<Decision>)
    ensures SinceUnblock(ds).None? <==> Filter(ds, OfKind(Unblocked)) == []
    ensures SinceUnblock(ds).Some? ==> exists i | 0 <= i < |ds| :: ds[i].kind.Unblocked? && ds[i].ts == SinceUnblock(ds).value
    ensures forall i | 0 <= i < |ds| && ds[i].kind.Unblocked? :: SinceUnblock(ds).Some? && ds[i].ts <= SinceUnblock(ds).value
  {
    if ds != [] {
      SinceUnblockIsMax(Init(ds));
      if SinceUnblock(Init(ds)).Some? {
        var i :| 0 <= i < |Init(ds)| && Init(ds)[i].kind.Unblocked? && Init(ds)[i].ts == SinceUnblock(Init(ds)).value;
        assert ds[i] == Init(ds)[i];
      }
    }
  }
}

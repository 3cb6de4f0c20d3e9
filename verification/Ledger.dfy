/** The agent board's ledger and `Derive`, the one pure function behind every column.
    A card is its fields at create plus an append-only event list; Dave's decisions live in a
    separate stream and run outcomes in receipts.  Times are integer seconds. */
module Ledger {
  import opened Seqs

  type Id = string
  type Hash = string
  type RunId = string

  const STRIKE_LIMIT: nat := 2

  /** The instant of a derivation, and the box-local date it falls on. */
  datatype Clock = Clock(now: int, today: int)

  datatype Actor = Dave | MacClaude | Reactor | Run(run: RunId) | Buzz(agent: string)

  predicate IsHuman(a: Actor) {
    a.Dave? || a.MacClaude? || a.Buzz?
  }

  datatype Priority = High | Normal | Low
  datatype Purpose = BriefRun | ResearchRun
  datatype NoteKind = Questions | Answer

  /** `day` is the date part, `due` the instant `due_at` reads from it in the board's time zone. */
  datatype ResearchOn = ResearchOn(day: int, due: int)

  datatype Fields = Fields(title: string, scope: seq<string>, deadline: Option<int>,
                           researchOn: Option<ResearchOn>, priority: Priority, tags: seq<string>)

  /** What an edit sets; an absent entry leaves its field alone. */
  datatype Changes = Changes(title: Option<string>, scope: Option<seq<string>>, deadline: Option<Option<int>>,
                             researchOn: Option<Option<ResearchOn>>, priority: Option<Priority>,
                             tags: Option<seq<string>>)

  datatype DecisionKind = BriefApproved | BriefReturned | Approved | ChangesRequested | Rejected
                        | BlockedByDave | Unblocked | Deleted | Restored

  datatype Decision = Decision(ts: int, kind: DecisionKind, card: Id,
                               briefHash: Option<Hash>, pageHash: Option<Hash>)

  /** `DecisionShaped` is a decision's name found in the ledger, where no decision belongs. */
  datatype Event =
    | CreatedEvent(ts: int, actor: Actor)
    | BriefEvent(ts: int, actor: Actor, hash: Hash, run: Option<RunId>)
    | PickedEvent(ts: int, actor: Actor, runId: RunId, picked: Option<Hash>, purpose: Purpose)
    | NoteEvent(ts: int, actor: Actor, note: Option<NoteKind>)
    | EditedEvent(ts: int, actor: Actor, changes: Changes)
    | HeldEvent(ts: int, actor: Actor, reason: string)
    | DecisionShaped(ts: int, actor: Actor, shape: DecisionKind)

  datatype RunOutcome = Artifact | Decline | Failed | Skipped | OtherOutcome
  datatype Receipt = Receipt(outcome: Option<RunOutcome>, page: bool)

  datatype CardRun = CardRun(runId: RunId, ts: int, purpose: Purpose, outcome: Option<RunOutcome>,
                             page: bool, void: bool)

  datatype Column = Backlog | Refine | Todo | InProgress | InReview | Done | Blocked
  datatype CardOutcome = Merged | RejectedOutcome | Withdrawn
  datatype Cause = ReturnedTwice | ChangesTwice | DeclinedTwice | ByDave | Held(reason: string) | DeadlinePassed
  datatype Trigger = Trigger(ts: int, cause: Cause)

  datatype FieldName = TitleField | TagsField | PriorityField | ResearchOnField | DeadlineField
                     | ScopeField | BriefField | NotesField
  datatype Verb = ApproveBrief | ReturnBrief | Approve | RequestChanges | Reject
                | Block | Unblock | Delete | Restore

  datatype Exception = ForgedDecision(shape: DecisionKind) | ForgedHold(actor: Actor) | StalePick(runId: RunId)

  datatype BriefState = BriefState(hash: Option<Hash>, version: nat, author: Option<Actor>, approved: bool,
                                   recorded: set<Hash>)
  datatype Flow = Flow(column: Column, stale: Option<RunId>, approved: Option<Decision>)
  datatype Wants = Wants(wants: Option<Purpose>, awaitingAnswer: bool, questionRounds: nat)

  datatype View = View(id: Id, column: Column, scheduled: bool, outcome: Option<CardOutcome>,
                       blockedCause: Option<Cause>, landing: bool, approvedHash: Option<Hash>, fields: Fields,
                       brief: BriefState, rev: nat, runs: seq<CardRun>, hasResearchRun: bool,
                       editable: set<FieldName>, moves: set<Verb>, exceptions: seq<Exception>,
                       deleted: bool, deletedAt: Option<int>, wants: Wants, dueAt: Option<int>,
                       failedStreak: nat, unblockedAt: Option<int>)

  // ---------- stamps and kinds ----------

  function EventTs(e: Event): int { e.ts }
  function DecisionTs(d: Decision): int { d.ts }
  function RunTs(r: CardRun): int { r.ts }

  predicate IsBrief(e: Event) { e.BriefEvent? }
  predicate IsPick(e: Event) { e.PickedEvent? }
  predicate Rescopes(e: Event) { e.EditedEvent? && e.changes.scope.Some? }
  predicate IsQuestions(e: Event) { e.NoteEvent? && e.note == Some(Questions) && e.actor.Run? }
  predicate IsReactorHold(e: Event) { e.HeldEvent? && e.actor.Reactor? }

  function OfKind(k: DecisionKind): Decision -> bool {
    (d: Decision) => d.kind == k
  }

  function OfCard(id: Id): Decision -> bool {
    (d: Decision) => d.card == id
  }

  /** Dave's verdict on one brief text: approvals are matched by hash, not by position. */
  function VerdictOn(h: Hash): Decision -> bool {
    (d: Decision) => (d.kind.BriefApproved? || d.kind.BriefReturned?) && d.briefHash == Some(h)
  }

  function ReturnOf(recorded: set<Hash>): Decision -> bool {
    (d: Decision) => d.kind.BriefReturned? && d.briefHash.Some? && d.briefHash.value in recorded
  }

  function ReviewAfter(since: int): Decision -> bool {
    (d: Decision) => (d.kind.Approved? || d.kind.ChangesRequested?) && d.ts > since
  }

  predicate IsDeletion(d: Decision) { d.kind.Deleted? || d.kind.Restored? }

  predicate IsDecline(r: CardRun) { r.outcome == Some(Decline) }
  predicate IsLiveResearch(r: CardRun) {
    r.purpose.ResearchRun? && !r.void && r.outcome != Some(Decline)
  }

  function LiveAfter(since: Option<int>): Trigger -> bool {
    (t: Trigger) => since.None? || t.ts > since.value
  }

  function Latest(ds: seq<Decision>): Option<Decision> {
    LastOption(Ordered(ds, DecisionTs))
  }

  predicate Any<T>(xs: seq<T>, p: T -> bool) {
    exists i | 0 <= i < |xs| :: p(xs[i])
  }

  lemma IndexOfSplit<T>(before: seq<T>, x: T, after: seq<T>)
    requires x !in before
    ensures IndexOf(before + [x] + after, x) == |before|
    ensures (before + [x] + after)[|before| + 1..] == after
  {
    var xs := before + [x] + after;
    assert xs[|before|] == x && forall j | 0 <= j < |before| :: xs[j] == before[j];
  }

  /** The first position holding a value equal to `x`, or the length. */
  function IndexOf<T(==)>(xs: seq<T>, x: T): (i: nat)
    ensures i <= |xs|
    ensures i < |xs| ==> xs[i] == x
    ensures x in xs ==> i < |xs|
    ensures forall j | 0 <= j < i :: xs[j] != x
  {
    if xs == [] then 0 else if xs[0] == x then 0 else 1 + IndexOf(xs[1..], x)
  }

  function MaxOf(xs: seq<int>): Option<int> {
    if xs == [] then None
    else
      var m := MaxOf(Init(xs));
      if m.Some? then Some(Max(m.value, Last(xs))) else Some(Last(xs))
  }

  // ---------- derivation ----------

  function ApplyChanges(f: Fields, c: Changes): Fields {
    Fields(if c.title.Some? then c.title.value else f.title,
           if c.scope.Some? then c.scope.value else f.scope,
           if c.deadline.Some? then c.deadline.value else f.deadline,
           if c.researchOn.Some? then c.researchOn.value else f.researchOn,
           if c.priority.Some? then c.priority.value else f.priority,
           if c.tags.Some? then c.tags.value else f.tags)
  }

  /** The fields at create with every edit of `ordered` applied in turn. */
  function FieldsAfter(f: Fields, ordered: seq<Event>): Fields {
    if ordered == [] then f
    else
      var before := FieldsAfter(f, Init(ordered));
      if Last(ordered).EditedEvent? then ApplyChanges(before, Last(ordered).changes) else before
  }

  function EffectiveFields(f: Fields, events: seq<Event>): Fields {
    FieldsAfter(f, Ordered(events, EventTs))
  }

  function Hashes(briefs: seq<Event>): set<Hash> {
    set e | e in briefs && e.BriefEvent? :: e.hash
  }

  function Brief(events: seq<Event>, decisions: seq<Decision>): BriefState {
    BriefOrdered(Ordered(events, EventTs), decisions)
  }

  /** `voided` looks after the first copy of the last brief, as a list's `index` does. */
  function BriefOrdered(ordered: seq<Event>, decisions: seq<Decision>): BriefState {
    var briefs := Filter(ordered, IsBrief);
    if briefs == [] then BriefState(None, 0, None, false, {})
    else
      FilterMembers(ordered, IsBrief);
      var last := Last(briefs);
      var at := IndexOf(ordered, last);
      var voided := Any(ordered[at + 1..], Rescopes);
      var verdict := Latest(Filter(decisions, VerdictOn(last.hash)));
      if voided || (verdict.Some? && verdict.value.kind.BriefReturned?) then
        BriefState(None, |briefs|, Some(last.actor), false, Hashes(briefs))
      else
        BriefState(Some(last.hash), |briefs|, Some(last.actor), verdict.Some?, Hashes(briefs))
  }

  function ReadOutcome(run: RunId, receipts: map<RunId, Receipt>): Option<RunOutcome> {
    if run in receipts then receipts[run].outcome else None
  }

  predicate Void(outcome: Option<RunOutcome>, purpose: Purpose, page: bool) {
    || outcome == Some(Failed)
    || outcome == Some(Skipped)
    || (outcome == Some(Artifact) && purpose.ResearchRun? && !page)
  }

  function RunOf(pick: Event, receipts: map<RunId, Receipt>): CardRun
    requires IsPick(pick)
  {
    var outcome := ReadOutcome(pick.runId, receipts);
    var page := pick.runId in receipts && receipts[pick.runId].page;
    CardRun(pick.runId, pick.ts, pick.purpose, outcome, page, Void(outcome, pick.purpose, page))
  }

  /** One run per pick, in the order given. */
  function RunsIn(ordered: seq<Event>, receipts: map<RunId, Receipt>): seq<CardRun> {
    if ordered == [] then []
    else if IsPick(Last(ordered)) then RunsIn(Init(ordered), receipts) + [RunOf(Last(ordered), receipts)]
    else RunsIn(Init(ordered), receipts)
  }

  function Runs(events: seq<Event>, receipts: map<RunId, Receipt>): seq<CardRun> {
    RunsIn(Ordered(events, EventTs), receipts)
  }

  function DecisionTriggers(ds: seq<Decision>, cause: Cause): seq<Trigger> {
    seq(|ds|, i requires 0 <= i < |ds| => Trigger(ds[i].ts, cause))
  }

  function RunTriggers(rs: seq<CardRun>, cause: Cause): seq<Trigger> {
    seq(|rs|, i requires 0 <= i < |rs| => Trigger(rs[i].ts, cause))
  }

  /** Every row from the second strike on. */
  function Strikes<T>(rows: seq<T>): seq<T> {
    if |rows| < STRIKE_LIMIT then [] else rows[STRIKE_LIMIT - 1..]
  }

  function HoldTriggers(events: seq<Event>): seq<Trigger> {
    if events == [] then []
    else if IsReactorHold(Last(events)) then
      HoldTriggers(Init(events)) + [Trigger(Last(events).ts, Held(Last(events).reason))]
    else HoldTriggers(Init(events))
  }

  function SinceUnblock(ds: seq<Decision>): Option<int> {
    if ds == [] then None
    else
      var before := SinceUnblock(Init(ds));
      if !Last(ds).kind.Unblocked? then before
      else if before.Some? then Some(Max(before.value, Last(ds).ts))
      else Some(Last(ds).ts)
  }

  /** 23:59:59Z of a day. */
  function DayEnd(day: int): int { day * 86400 + 86399 }

  function ReturnStrikes(decisions: seq<Decision>, recorded: set<Hash>): seq<Decision> {
    Strikes(Ordered(Filter(decisions, ReturnOf(recorded)), DecisionTs))
  }

  function ChangeStrikes(decisions: seq<Decision>): seq<Decision> {
    Strikes(Ordered(Filter(decisions, OfKind(ChangesRequested)), DecisionTs))
  }

  function DeclineStrikes(runs: seq<CardRun>): seq<CardRun> {
    Strikes(Ordered(Filter(runs, IsDecline), RunTs))
  }

  function DeadlineTriggers(fields: Fields, today: int, approvedLanding: bool): seq<Trigger> {
    if fields.deadline.Some? && today > fields.deadline.value && !approvedLanding
    then [Trigger(DayEnd(fields.deadline.value), DeadlinePassed)] else []
  }

  function Triggers(decisions: seq<Decision>, runs: seq<CardRun>, recorded: set<Hash>, fields: Fields,
                    today: int, approvedLanding: bool, holds: seq<Trigger>): seq<Trigger> {
    DecisionTriggers(ReturnStrikes(decisions, recorded), ReturnedTwice)
    + DecisionTriggers(ChangeStrikes(decisions), ChangesTwice)
    + RunTriggers(DeclineStrikes(runs), DeclinedTwice)
    + DecisionTriggers(Filter(decisions, OfKind(BlockedByDave)), ByDave)
    + holds
    + DeadlineTriggers(fields, today, approvedLanding)
  }

  /** The first of the latest triggers. */
  function Best(ts: seq<Trigger>): Trigger
    requires ts != []
  {
    if |ts| == 1 then ts[0]
    else
      var m := Best(Init(ts));
      if Last(ts).ts > m.ts then Last(ts) else m
  }

  /** Why the card is blocked: the latest trigger no unblock has lifted. */
  function Blocks(decisions: seq<Decision>, runs: seq<CardRun>, recorded: set<Hash>, fields: Fields,
                  today: int, approvedLanding: bool, holds: seq<Trigger>): Option<Cause> {
    var triggers := Triggers(decisions, runs, recorded, fields, today, approvedLanding, holds);
    var live := Filter(triggers, LiveAfter(SinceUnblock(decisions)));
    if live == [] then None else Some(Best(live).cause)
  }

  function FlowOf(brief: BriefState, runs: seq<CardRun>, decisions: seq<Decision>, now: int, timeout: int): Flow {
    if brief.hash.None? then Flow(Backlog, None, None)
    else if !brief.approved then Flow(Refine, None, None)
    else
      var live := Filter(runs, IsLiveResearch);
      if live == [] then Flow(Todo, None, None)
      else
        var last := Last(live);
        if last.outcome.None? then
          Flow(InProgress, if now - last.ts > timeout then Some(last.runId) else None, None)
        else
          var verdict := Latest(Filter(decisions, ReviewAfter(last.ts)));
          if verdict.Some? && verdict.value.kind.ChangesRequested? then Flow(Todo, None, None)
          else Flow(InReview, None, verdict)
  }

  /** Void runs at the tail of the card's runs, counted from the latest unblock. */
  function FailedStreak(runs: seq<CardRun>, since: Option<int>): nat {
    if runs == [] then 0
    else if since.Some? && Last(runs).ts <= since.value then FailedStreak(Init(runs), since)
    else if Last(runs).void then FailedStreak(Init(runs), since) + 1
    else 0
  }

  predicate IsAgentBrief(e: Event) { e.BriefEvent? && !IsHuman(e.actor) }

  /** Does a brief run answer `e`, given what the ledger held before it? */
  predicate IsInput(before: seq<Event>, e: Event) {
    match e
    case CreatedEvent(_, _) => true
    case BriefEvent(_, actor, _, _) => IsHuman(actor) && !Any(before, IsAgentBrief)
    case NoteEvent(_, actor, note) => IsHuman(actor) && (note.None? || note.value.Answer?)
    case EditedEvent(_, _, changes) => changes.scope.Some?
    case _ => false
  }

  function EventInputs(ordered: seq<Event>): seq<int> {
    if ordered == [] then []
    else if IsInput(Init(ordered), Last(ordered)) then EventInputs(Init(ordered)) + [Last(ordered).ts]
    else EventInputs(Init(ordered))
  }

  function Times(ds: seq<Decision>): seq<int> {
    seq(|ds|, i requires 0 <= i < |ds| => ds[i].ts)
  }

  /** What a brief run answers: the card, Dave's first text, his notes, a new scope, a return. */
  function HumanInputs(events: seq<Event>, decisions: seq<Decision>): seq<int> {
    EventInputs(Ordered(events, EventTs)) + Times(Filter(decisions, OfKind(BriefReturned)))
  }

  /** When the card's brief was last worked on: its live brief runs, and every brief a run wrote. */
  function BriefRunTimes(runs: seq<CardRun>): seq<int> {
    if runs == [] then []
    else if Last(runs).purpose.BriefRun? && !Last(runs).void then BriefRunTimes(Init(runs)) + [Last(runs).ts]
    else BriefRunTimes(Init(runs))
  }

  function RunBriefTimes(events: seq<Event>): seq<int> {
    if events == [] then []
    else if Last(events).BriefEvent? && Last(events).actor.Run? then RunBriefTimes(Init(events)) + [Last(events).ts]
    else RunBriefTimes(Init(events))
  }

  function BriefWants(column: Column, brief: BriefState, runs: seq<CardRun>, events: seq<Event>,
                      decisions: seq<Decision>): Wants {
    var asked := Filter(Ordered(events, EventTs), IsQuestions);
    if !(column.Backlog? || column.Refine?) || brief.approved then Wants(None, false, |asked|)
    else
      var latest := MaxOf(HumanInputs(events, decisions));
      var answered := MaxOf(BriefRunTimes(runs) + RunBriefTimes(events));
      Wants(if answered.None? || (latest.Some? && latest.value > answered.value) then Some(BriefRun) else None,
            asked != [] && (latest.None? || Last(asked).ts > latest.value),
            |asked|)
  }

  function Deletion(decisions: seq<Decision>): Option<int> {
    var last := Latest(Filter(decisions, IsDeletion));
    if last.Some? && last.value.kind.Deleted? then Some(last.value.ts) else None
  }

  function EditableColumns(name: FieldName): set<Column> {
    match name
    case TitleField => {Backlog, Refine, Todo, InProgress, InReview, Blocked}
    case TagsField => {Backlog, Refine, Todo, InProgress, InReview, Blocked}
    case PriorityField => {Backlog, Refine, Todo, InProgress, InReview, Blocked}
    case ResearchOnField => {Backlog, Refine, Todo, InReview, Blocked}
    case DeadlineField => {Backlog, Refine, Todo, InReview, Blocked}
    case ScopeField => Briefable
    case BriefField => Briefable
    case NotesField => {Backlog, Refine, Todo, InProgress, InReview, Done, Blocked}
  }

  const Briefable: set<Column> := {Backlog, Refine, Todo, Blocked}
  const FieldNames: set<FieldName> := {TitleField, TagsField, PriorityField, ResearchOnField, DeadlineField,
                                       ScopeField, BriefField, NotesField}

  function EditableFields(column: Column, hasResearchRun: bool): set<FieldName> {
    set f | f in FieldNames && column in EditableColumns(f) && !(hasResearchRun && f.ScopeField?)
  }

  lemma ScopeEditable(column: Column, hasResearchRun: bool)
    ensures ScopeField in EditableFields(column, hasResearchRun) <==> column in Briefable && !hasResearchRun
  {
    assert ScopeField in FieldNames;
  }

  function Moves(column: Column): set<Verb> {
    match column
    case Backlog => {Delete}
    case Refine => {ApproveBrief, ReturnBrief, Delete}
    case Todo => {Block, Delete}
    case InProgress => {Delete}
    case InReview => {Approve, RequestChanges, Reject}
    case Blocked => {Unblock, Delete}
    case Done => {Delete}
  }

  function ForgedDecisions(events: seq<Event>): seq<Exception> {
    if events == [] then []
    else if Last(events).DecisionShaped? then ForgedDecisions(Init(events)) + [ForgedDecision(Last(events).shape)]
    else ForgedDecisions(Init(events))
  }

  function ForgedHolds(events: seq<Event>): seq<Exception> {
    if events == [] then []
    else if Last(events).HeldEvent? && !Last(events).actor.Reactor? then
      ForgedHolds(Init(events)) + [ForgedHold(Last(events).actor)]
    else ForgedHolds(Init(events))
  }

  predicate IsResearch(r: CardRun) { r.purpose.ResearchRun? }

  /** The column: a rejection or a merged approval is Done, a live trigger is Blocked. */
  function ColumnOf(flow: Flow, rejected: bool, block: Option<Cause>, main: Option<Hash>): Column {
    if rejected then Done
    else if MergedApproval(flow, main) then Done
    else if block.Some? then Blocked
    else flow.column
  }

  predicate MergedApproval(flow: Flow, main: Option<Hash>) {
    flow.approved.Some? && flow.approved.value.pageHash.Some? && main == flow.approved.value.pageHash
  }

  /** What the ledger says of a card before any clause is weighed. */
  datatype Facts = Facts(fields: Fields, brief: BriefState, runs: seq<CardRun>, holds: seq<Trigger>)

  /** `mine` is this card's part of the decision stream. */
  function FactsOf(atCreate: Fields, events: seq<Event>, mine: seq<Decision>, receipts: map<RunId, Receipt>): Facts {
    Facts(EffectiveFields(atCreate, events), Brief(events, mine), Runs(events, receipts), HoldTriggers(events))
  }

  function CardFlow(f: Facts, mine: seq<Decision>, clock: Clock, timeout: int): Flow {
    FlowOf(f.brief, f.runs, mine, clock.now, timeout)
  }

  function CardBlock(f: Facts, mine: seq<Decision>, clock: Clock, timeout: int): Option<Cause> {
    Blocks(mine, f.runs, f.brief.recorded, f.fields, clock.today, CardFlow(f, mine, clock, timeout).approved.Some?, f.holds)
  }

  predicate IsRejected(mine: seq<Decision>) {
    Filter(mine, OfKind(Rejected)) != []
  }

  function CardColumn(f: Facts, mine: seq<Decision>, main: Option<Hash>, clock: Clock, timeout: int): Column {
    ColumnOf(CardFlow(f, mine, clock, timeout), IsRejected(mine), CardBlock(f, mine, clock, timeout), main)
  }

  /** The view those facts give.  Leaving the rejection out of the stream cannot change the flow,
      which reads only approvals and change requests, so the outcome reads the flow's own column. */
  function Assemble(id: Id, f: Facts, mine: seq<Decision>, main: Option<Hash>, clock: Clock, timeout: int,
                    wants: Wants, rev: nat, forged: seq<Exception>): View {
    var flow, column := CardFlow(f, mine, clock, timeout), CardColumn(f, mine, main, clock, timeout);
    var due := if f.fields.researchOn.Some? then Some(f.fields.researchOn.value.due) else None;
    var scheduled := due.Some? && clock.now < due.value && column.Todo?;
    var landing := column.InReview? && flow.approved.Some?;
    var hasRun := Any(f.runs, IsResearch);
    var deletedAt := Deletion(mine);
    var wanted := if deletedAt.Some? then None else if column.Todo? && !scheduled then Some(ResearchRun) else wants.wants;
    View(id, column, scheduled,
         if IsRejected(mine) then Some(if flow.column.InReview? then RejectedOutcome else Withdrawn)
         else if column.Done? then Some(Merged) else None,
         if column.Blocked? then CardBlock(f, mine, clock, timeout) else None, landing,
         if flow.approved.Some? then flow.approved.value.pageHash else None,
         f.fields, f.brief, rev, f.runs, hasRun, EditableFields(column, hasRun),
         if landing then {} else Moves(column),
         forged + (if flow.stale.Some? && column.InProgress? then [StalePick(flow.stale.value)] else []),
         deletedAt.Some?, deletedAt, wants.(wants := wanted), due,
         FailedStreak(f.runs, SinceUnblock(mine)), SinceUnblock(mine))
  }

  /** `main` is the hash of the card's note on canonical main. */
  function DeriveMine(id: Id, atCreate: Fields, events: seq<Event>, mine: seq<Decision>,
                      receipts: map<RunId, Receipt>, main: Option<Hash>, clock: Clock, timeout: int): View {
    var f := FactsOf(atCreate, events, mine, receipts);
    var wants := BriefWants(CardColumn(f, mine, main, clock, timeout), f.brief, f.runs, events, mine);
    Assemble(id, f, mine, main, clock, timeout, wants, |events|, ForgedDecisions(events) + ForgedHolds(events))
  }

  function Derive(id: Id, atCreate: Fields, events: seq<Event>, decisions: seq<Decision>,
                  receipts: map<RunId, Receipt>, main: map<Id, Hash>, clock: Clock, timeout: int): View {
    DeriveMine(id, atCreate, events, Filter(decisions, OfCard(id)), receipts,
               if id in main then Some(main[id]) else None, clock, timeout)
  }

  // ---------- the loops the source computes these with ----------

  method CountFailedStreak(runs: seq<CardRun>, decisions: seq<Decision>) returns (streak: nat)
    ensures streak == FailedStreak(runs, SinceUnblock(decisions))
  {
    var since := SinceUnblock(decisions);
    streak := 0;
    for i := 0 to |runs|
      invariant streak == FailedStreak(runs[..i], since)
    {
      assert Init(runs[..i + 1]) == runs[..i];
      if !(since.Some? && runs[i].ts <= since.value) {
        streak := if runs[i].void then streak + 1 else 0;
      }
    }
    assert runs[..|runs|] == runs;
  }

  method CollectHumanInputs(events: seq<Event>, decisions: seq<Decision>) returns (times: seq<int>)
    ensures times == HumanInputs(events, decisions)
  {
    var ordered := Ordered(events, EventTs);
    var agentWrote := false;
    times := [];
    for i := 0 to |ordered|
      invariant agentWrote == Any(ordered[..i], IsAgentBrief)
      invariant times == EventInputs(ordered[..i])
    {
      assert Init(ordered[..i + 1]) == ordered[..i];
      assert forall j | 0 <= j < i :: ordered[..i + 1][j] == ordered[..i][j];
      var event := ordered[i];
      if event.BriefEvent? && !IsHuman(event.actor) {
        agentWrote := true;
        assert IsAgentBrief(ordered[..i + 1][i]);
      }
      var humanBrief := event.BriefEvent? && IsHuman(event.actor) && !agentWrote;
      var humanNote := event.NoteEvent? && IsHuman(event.actor) && (event.note.None? || event.note.value.Answer?);
      if event.CreatedEvent? || humanBrief || humanNote || Rescopes(event) {
        times := times + [event.ts];
      }
    }
    assert ordered[..|ordered|] == ordered;
    times := times + Times(Filter(decisions, OfKind(BriefReturned)));
  }

  method ComputeEffectiveFields(atCreate: Fields, events: seq<Event>) returns (fields: Fields)
    ensures fields == EffectiveFields(atCreate, events)
  {
    var ordered := Ordered(events, EventTs);
    fields := atCreate;
    for i := 0 to |ordered|
      invariant fields == FieldsAfter(atCreate, ordered[..i])
    {
      assert Init(ordered[..i + 1]) == ordered[..i];
      if ordered[i].EditedEvent? {
        fields := ApplyChanges(fields, ordered[i].changes);
      }
    }
    assert ordered[..|ordered|] == ordered;
  }
}

/** The board: card directories, the trash, the decision stream and the receipts, with every verb
    that may change them.  `Take` says what each verb does; class `Store` does it in place. */
module Board {
  import opened Seqs
  import opened Text
  import opened Ledger
  import opened Life
  import opened Order

  const TRASH_SECONDS: int := 30 * 86400
  const MAX_TEXT: nat := 60000
  const ReservedIds: set<Id> := {"decisions", "new", "trash"}

  /** One card directory: the fields at create, the event list, the brief files by hash. */
  datatype Dir = Dir(fields: Fields, events: seq<Event>, texts: map<Hash, string>)

  datatype World = World(cards: map<Id, Dir>, trash: map<Id, Dir>, decisions: seq<Decision>,
                         receipts: map<RunId, Receipt>)

  /** When a verb runs, and canonical main as it then is. */
  datatype Instant = Instant(clock: Clock, main: map<Id, Hash>, timeout: int)

  datatype Verbs =
    | Create(creator: Actor, id: Id, fields: Fields, text: string)
    | AddBrief(id: Id, text: string, actor: Actor, expectRev: Option<nat>)
    | AddNote(id: Id, text: string, actor: Actor, note: Option<NoteKind>)
    | HoldIt(id: Id, reason: string)
    | EditIt(id: Id, changes: Changes, rev: nat, actor: Actor)
    | PickIt(id: Id, runId: RunId, purpose: Purpose)
    | DecideIt(id: Id, verb: Verb, expectRev: Option<nat>, briefHash: Option<Hash>, reason: string,
               rendered: Hash, exported: Option<string>)
    | Land(receipts: map<RunId, Receipt>)
    | Trash(id: Id)
    | RestoreIt(id: Id)
    | Purge(id: Id)

  function MomentFor(id: Id, at: Instant): Moment {
    Moment(at.clock, if id in at.main then Some(at.main[id]) else None, at.timeout)
  }

  /** The card a directory and the shared streams make. */
  function CardIn(id: Id, dir: Dir, w: World): Card {
    Card(id, dir.fields, dir.events, Filter(w.decisions, OfCard(id)), w.receipts)
  }

  predicate TextOk(text: string) {
    Normalise(text) != "" && |text| <= MAX_TEXT
  }

  predicate RevOk(expected: Option<nat>, rev: nat) {
    expected.None? || expected.value == rev
  }

  /** `^[a-z][a-z0-9-]{1,40}$` */
  predicate IsReasonCode(reason: string) {
    && 2 <= |reason| <= 41
    && 'a' <= reason[0] <= 'z'
    && forall i | 1 <= i < |reason| :: 'a' <= reason[i] <= 'z' || '0' <= reason[i] <= '9' || reason[i] == '-'
  }

  predicate Reasoned(verb: Verb) { verb.ReturnBrief? || verb.RequestChanges? || verb.Reject? }

  /** The stored text of the brief shown still hashes to its name. */
  predicate BriefReads(sha: string -> string, dir: Dir, shown: Option<Hash>) {
    shown.Some? ==> shown.value in dir.texts && TextHash(sha, dir.texts[shown.value]) == shown.value
  }

  predicate CreateOk(w: World, v: Verbs)
    requires v.Create?
  {
    && IsHuman(v.creator) && v.id !in ReservedIds && DatesAgree(v.fields)
    && v.id !in w.trash && v.id !in w.cards && TextOk(v.text)
  }

  /** `_check_move` and the hash, reason and page checks of the gate. */
  predicate DecideOk(w: World, sha: string -> string, v: Verbs, at: Instant)
    requires v.DecideIt?
  {
    if v.verb.Restore? then
      v.id in w.trash
      || (v.id in w.cards && Shown(CardIn(v.id, w.cards[v.id], w), MomentFor(v.id, at)).deleted)
    else
      && v.id in w.cards
      && var shown := Shown(CardIn(v.id, w.cards[v.id], w), MomentFor(v.id, at));
      && GateAccepts(shown, v.verb, v.briefHash, false)
      && RevOk(v.expectRev, shown.rev)
      && (Reasoned(v.verb) ==> Strip(v.reason) != "")
      && (v.verb.Approve? ==> v.exported.Some? && v.exported.value != "" && TextHash(sha, v.exported.value) == v.rendered)
  }

  /** The card-level act a verb on a board card amounts to, if it is not refused outright. */
  function ActOf(sha: string -> string, w: World, v: Verbs, at: Instant): Option<Act> {
    match v
    case AddBrief(id, text, actor, rev) =>
      if id in w.cards && TextOk(text) && RevOk(rev, |w.cards[id].events|)
      then Some(WriteBrief(actor, TextHash(sha, text))) else None
    case AddNote(id, text, actor, note) =>
      if id in w.cards && TextOk(text) then Some(WriteNote(actor, note)) else None
    case HoldIt(id, reason) => if id in w.cards && IsReasonCode(reason) then Some(HoldCard(reason)) else None
    case EditIt(id, changes, rev, actor) =>
      if id in w.cards && rev == |w.cards[id].events|
      then Some(EditCard(actor, Diff(EffectiveFields(w.cards[id].fields, w.cards[id].events), changes))) else None
    case PickIt(id, runId, purpose) =>
      if id in w.cards && BriefReads(sha, w.cards[id], Brief(w.cards[id].events, Filter(w.decisions, OfCard(id))).hash)
      then Some(PickCard(runId, purpose)) else None
    case _ => None
  }

  function NewDir(sha: string -> string, v: Verbs, now: int): Dir
    requires v.Create?
  {
    var h := TextHash(sha, v.text);
    Dir(v.fields, [CreatedEvent(now, v.creator), BriefEvent(now, v.creator, h, None)], map[h := Stored(v.text)])
  }

  function DecisionIn(v: Verbs, now: int): Decision
    requires v.DecideIt?
  {
    Decision(now, DecisionOf(v.verb), v.id, if BriefHashed(v.verb) then v.briefHash else None,
             if v.verb.Approve? then Some(v.rendered) else None)
  }

  /** The latest deletion still in force, if any. */
  function DeletedAt(w: World, id: Id): Option<int> {
    Deletion(Filter(w.decisions, OfCard(id)))
  }

  /** `w.cards` with one more event, beside the brief files as they then stand. */
  function Append(w: World, id: Id, e: Event, texts: map<Hash, string>): World
    requires id in w.cards
  {
    w.(cards := w.cards[id := w.cards[id].(events := w.cards[id].events + [e], texts := texts)])
  }

  function FilesAfter(sha: string -> string, texts: map<Hash, string>, v: Verbs): map<Hash, string> {
    if v.AddBrief? then texts[TextHash(sha, v.text) := Stored(v.text)] else texts
  }

  /** What each verb does to the board; a refused verb does nothing. */
  ghost function Take(w: World, sha: string -> string, v: Verbs, at: Instant): World {
    match v
    case Create(_, id, _, _) =>
      if CreateOk(w, v) then w.(cards := w.cards[id := NewDir(sha, v, at.clock.now)]) else w
    case DecideIt(_, _, _, _, _, _, _) =>
      if DecideOk(w, sha, v, at) then w.(decisions := w.decisions + [DecisionIn(v, at.clock.now)]) else w
    case Land(receipts) => if Settles(w.receipts, receipts) then w.(receipts := receipts) else w
    case Trash(id) =>
      if id in w.cards && id !in w.trash then w.(cards := w.cards - {id}, trash := w.trash[id := w.cards[id]]) else w
    case RestoreIt(id) =>
      if id in w.trash && id !in w.cards then w.(trash := w.trash - {id}, cards := w.cards[id := w.trash[id]]) else w
    case Purge(id) =>
      if id in w.trash && DeletedAt(w, id).Some? && at.clock.now >= DeletedAt(w, id).value + TRASH_SECONDS
      then w.(trash := w.trash - {id}) else w
    case _ =>
      var act := ActOf(sha, w, v, at);
      if act.Some? && Allowed(CardIn(v.id, w.cards[v.id], w), act.value, MomentFor(v.id, at))
      then Append(w, v.id, EventOf(CardIn(v.id, w.cards[v.id], w), act.value, MomentFor(v.id, at)),
                  FilesAfter(sha, w.cards[v.id].texts, v))
      else w
  }

  function ViewOf(w: World, id: Id, at: Instant): View
    requires id in w.cards
  {
    Shown(CardIn(id, w.cards[id], w), MomentFor(id, at))
  }

  /** A card `pick` may take: not deleted, wanting this kind of run in the joined and in the fresh
      view, its brief text on file and unaltered. */
  predicate Pickable(w: World, sha: string -> string, id: Id, purpose: Purpose, only: Option<Id>, at: Instant) {
    && id in w.cards
    && (only.None? || only.value == id)
    && !ViewOf(w, id, at).deleted
    && ViewOf(w, id, at).wants.wants == Some(purpose)
    && var seen := Fresh(CardIn(id, w.cards[id], w), MomentFor(id, at));
       seen.wants.wants == Some(purpose) && BriefReads(sha, w.cards[id], seen.brief.hash)
  }

  /** The run id already names a run of a card on the board. */
  predicate RunKnown(w: World, id: Id, runId: RunId, at: Instant) {
    id in w.cards && !ViewOf(w, id, at).deleted && Any(ViewOf(w, id, at).runs, HasRunId(runId))
  }

  datatype Timed = Timed(verb: Verbs, at: Instant)

  ghost function Play(w: World, sha: string -> string, steps: seq<Timed>): World {
    if steps == [] then w else Take(Play(w, sha, Init(steps)), sha, Last(steps).verb, Last(steps).at)
  }

  const EmptyBoard: World := World(map[], map[], [], map[])

  lemma FreshFields(c: Card, at: Moment)
    ensures Fresh(c, at).fields == EffectiveFields(c.fields, c.events)
  {
  }

  lemma ShownId(c: Card, at: Moment)
    ensures Shown(c, at).id == c.id
  {
  }

  /** The verbs' view differs from the shown one only through the main join. */
  lemma FreshBrief(c: Card, at: Moment)
    ensures Fresh(c, at).brief == Brief(c.events, c.decisions) == Shown(c, at).brief
    ensures Fresh(c, at).runs == Shown(c, at).runs
  {
  }

  /** `views` are the views of the undeleted board cards, in board order. */
  ghost predicate Listed(w: World, views: seq<View>, at: Instant) {
    && Arranged(views)
    && (forall v <- views :: v.id in w.cards && v == ViewOf(w, v.id, at) && !v.deleted)
    && (forall id | id in w.cards && !ViewOf(w, id, at).deleted :: ViewOf(w, id, at) in views)
  }

  ghost predicate FirstPickable(w: World, sha: string -> string, id: Id, purpose: Purpose, only: Option<Id>, at: Instant) {
    && Pickable(w, sha, id, purpose, only, at)
    && forall other | Pickable(w, sha, other, purpose, only, at) ::
         !Before(KeyOf(ViewOf(w, other, at)), KeyOf(ViewOf(w, id, at)))
  }

  lemma PickableIsListed(w: World, sha: string -> string, views: seq<View>, id: Id, purpose: Purpose, only: Option<Id>,
                         at: Instant) returns (k: nat)
    requires Listed(w, views, at) && Pickable(w, sha, id, purpose, only, at)
    ensures k < |views| && views[k].id == id && views[k] == ViewOf(w, id, at)
  {
    hide DeriveMine;
    k :| 0 <= k < |views| && views[k] == ViewOf(w, id, at);
    ShownId(CardIn(id, w.cards[id], w), MomentFor(id, at));
  }

  lemma FirstFound(w: World, sha: string -> string, views: seq<View>, i: nat, purpose: Purpose, only: Option<Id>,
                   at: Instant)
    requires Listed(w, views, at) && i < |views| && Pickable(w, sha, views[i].id, purpose, only, at)
    requires forall j | 0 <= j < i :: !Pickable(w, sha, views[j].id, purpose, only, at)
    ensures FirstPickable(w, sha, views[i].id, purpose, only, at)
  {
    hide DeriveMine;
    var id := views[i].id;
    assert views[i] in views;
    forall other | Pickable(w, sha, other, purpose, only, at)
      ensures !Before(KeyOf(ViewOf(w, other, at)), KeyOf(ViewOf(w, id, at)))
    {
      var k := PickableIsListed(w, sha, views, other, purpose, only, at);
      BeforeTotal(KeyOf(views[k]), KeyOf(views[i]));
    }
  }

  lemma NoneFound(w: World, sha: string -> string, views: seq<View>, purpose: Purpose, only: Option<Id>, at: Instant)
    requires Listed(w, views, at)
    requires forall j | 0 <= j < |views| :: !Pickable(w, sha, views[j].id, purpose, only, at)
    ensures forall id :: !Pickable(w, sha, id, purpose, only, at)
  {
    hide DeriveMine, Pickable;
    forall id ensures !Pickable(w, sha, id, purpose, only, at) {
      if Pickable(w, sha, id, purpose, only, at) {
        var k := PickableIsListed(w, sha, views, id, purpose, only, at);
      }
    }
  }

  // ---------- the store, changed in place ----------

  class Store {
    var cards: map<Id, Dir>
    var trash: map<Id, Dir>
    var decisions: seq<Decision>
    var receipts: map<RunId, Receipt>
    const sha: string -> string

    ghost function Now(): World
      reads this
    {
      World(cards, trash, decisions, receipts)
    }

    constructor (sha: string -> string)
      ensures Now() == EmptyBoard && this.sha == sha
    {
      this.sha := sha;
      cards, trash, decisions, receipts := map[], map[], [], map[];
    }

    method CreateCard(actor: Actor, id: Id, fields: Fields, text: string, at: Instant) returns (ok: bool)
      modifies this
      ensures Now() == Take(old(Now()), sha, Create(actor, id, fields, text), at)
      ensures ok <==> CreateOk(old(Now()), Create(actor, id, fields, text))
    {
      if !IsHuman(actor) || id in ReservedIds || !DatesAgree(fields) {
        return false;
      }
      if id in trash || id in cards || !TextOk(text) {
        return false;
      }
      var digest := TextHash(sha, text);
      var dir := Dir(fields, [CreatedEvent(at.clock.now, actor)], map[]);
      dir := dir.(texts := dir.texts[digest := Stored(text)],
                  events := dir.events + [BriefEvent(at.clock.now, actor, digest, None)]);
      assert dir == NewDir(sha, Create(actor, id, fields, text), at.clock.now);
      cards := cards[id := dir];
      ok := true;
    }

    /** Append one event; the brief text it names, if any, is on file first. */
    method AppendEvent(id: Id, e: Event)
      requires id in cards
      modifies this`cards
      ensures Now() == Append(old(Now()), id, e, old(cards)[id].texts)
    {
      cards := cards[id := cards[id].(events := cards[id].events + [e])];
    }

    /** The hash now on record for the text, or nothing when the brief is refused.  A second brief
        by one run is answered with its first. */
    method WriteBriefText(id: Id, text: string, actor: Actor, expectRev: Option<nat>, at: Instant)
      returns (digest: Option<Hash>)
      modifies this
      ensures Now() == Take(old(Now()), sha, AddBrief(id, text, actor, expectRev), at)
      ensures Now() != old(Now()) ==> digest == Some(TextHash(sha, text))
      ensures Now() == old(Now()) && digest.Some? ==>
        actor.Run? && id in old(cards) && exists i | 0 <= i < |old(cards)[id].events| ::
          WrittenBy(actor.run)(old(cards)[id].events[i]) && old(cards)[id].events[i].hash == digest.value
    {
      hide DeriveMine;
      ghost var was := Now();
      if actor.Reactor? || !TextOk(text) || id !in cards {
        return None;
      }
      var dir := cards[id];
      if !RevOk(expectRev, |dir.events|) {
        return None;
      }
      if actor.Run? {
        for i := 0 to |dir.events|
          invariant forall j | 0 <= j < i :: !WrittenBy(actor.run)(dir.events[j])
          invariant Now() == was
        {
          if WrittenBy(actor.run)(dir.events[i]) {
            return Some(dir.events[i].hash);
          }
        }
      }
      var card := Card(id, dir.fields, dir.events, Filter(decisions, OfCard(id)), receipts);
      var seen := Fresh(card, MomentFor(id, at));
      var hash := TextHash(sha, text);
      if !MayBrief(card, seen.column, seen.brief.hash, actor, hash) {
        return None;
      }
      cards := cards[id := dir.(texts := dir.texts[hash := Stored(text)])];
      AppendEvent(id, BriefEvent(at.clock.now, actor, hash, RunIdOf(actor)));
      digest := Some(hash);
      assert cards == was.cards[id := cards[id]];
      assert |cards[id].events| == |was.cards[id].events| + 1;
    }

    method WriteNoteText(id: Id, text: string, actor: Actor, note: Option<NoteKind>, at: Instant) returns (ok: bool)
      modifies this
      ensures Now() == Take(old(Now()), sha, AddNote(id, text, actor, note), at)
      ensures ok <==> NoteAllowed(actor, note) && TextOk(text) && id in old(cards)
    {
      ok := NoteAllowed(actor, note) && TextOk(text) && id in cards;
      if ok {
        AppendEvent(id, NoteEvent(at.clock.now, actor, note));
      }
    }

    /** False when the card is already held for a reason no unblock lifted. */
    method Hold(id: Id, reason: string, at: Instant) returns (held: bool)
      modifies this`cards
      ensures Now() == Take(old(Now()), sha, HoldIt(id, reason), at)
      ensures held <==> Now() != old(Now())
    {
      hide DeriveMine, IsReasonCode, Filter;
      held := false;
      if id in cards && IsReasonCode(reason) {
        var card := Card(id, cards[id].fields, cards[id].events, Filter(decisions, OfCard(id)), receipts);
        held := MayHold(Fresh(card, MomentFor(id, at)).blockedCause);
        if held {
          AppendEvent(id, HeldEvent(at.clock.now, Actor.Reactor, reason));
          assert |cards[id].events| == |old(cards)[id].events| + 1;
        }
      }
    }

    method Edit(id: Id, changes: Changes, expectRev: nat, actor: Actor, at: Instant) returns (ok: bool)
      modifies this
      ensures Now() == Take(old(Now()), sha, EditIt(id, changes, expectRev, actor), at)
      ensures ok <==> Now() != old(Now())
    {
      hide DeriveMine;
      ok := false;
      if id in cards && (actor.Dave? || actor.MacClaude?) && |cards[id].events| == expectRev {
        var card := Card(id, cards[id].fields, cards[id].events, Filter(decisions, OfCard(id)), receipts);
        var seen := Fresh(card, MomentFor(id, at));
        FreshFields(card, MomentFor(id, at));
        var diff := Diff(seen.fields, changes);
        ok := MayEdit(seen.editable, seen.fields, actor, diff);
        if ok {
          AppendEvent(id, EditedEvent(at.clock.now, actor, diff));
          assert |cards[id].events| == |old(cards)[id].events| + 1;
        }
      }
    }

    /** Append Dave's decision when the gate takes it; the broker's signing is not modelled. */
    method TakeDecision(v: Verbs, at: Instant) returns (ok: bool)
      requires v.DecideIt?
      modifies this`decisions
      ensures Now() == Take(old(Now()), sha, v, at)
      ensures ok <==> DecideOk(old(Now()), sha, v, at)
    {
      if v.verb.Restore? && v.id in trash {
        ok := true;
      } else if v.id !in cards {
        ok := false;
      } else {
        var card := Card(v.id, cards[v.id].fields, cards[v.id].events, Filter(decisions, OfCard(v.id)), receipts);
        var shown := Shown(card, MomentFor(v.id, at));
        if v.verb.Restore? {
          ok := shown.deleted;
        } else if shown.deleted || v.verb !in shown.moves || !RevOk(v.expectRev, shown.rev) {
          ok := false;
        } else if BriefHashed(v.verb) && (v.briefHash.None? || v.briefHash != shown.brief.hash) {
          ok := false;
        } else if Reasoned(v.verb) && Strip(v.reason) == "" {
          ok := false;
        } else if v.verb.Approve? {
          ok := v.exported.Some? && v.exported.value != "" && TextHash(sha, v.exported.value) == v.rendered;
        } else {
          ok := true;
        }
      }
      if ok {
        decisions := decisions + [DecisionIn(v, at.clock.now)];
      }
    }

    /** Move a card whole into the trash. */
    method TrashCard(id: Id, at: Instant) returns (moved: bool)
      modifies this`cards, this`trash
      ensures Now() == Take(old(Now()), sha, Trash(id), at)
      ensures moved <==> id in old(cards) && id !in old(trash)
    {
      moved := id in cards && id !in trash;
      if moved {
        var dir := cards[id];
        cards := cards - {id};
        trash := trash[id := dir];
      }
    }

    method RestoreCard(id: Id, at: Instant) returns (moved: bool)
      modifies this`cards, this`trash
      ensures Now() == Take(old(Now()), sha, RestoreIt(id), at)
      ensures moved <==> id in old(trash) && id !in old(cards)
    {
      moved := id in trash && id !in cards;
      if moved {
        var dir := trash[id];
        trash := trash - {id};
        cards := cards[id := dir];
      }
    }

    /** Remove a trashed card past the retention; one with no deletion on record is kept. */
    method PurgeCard(id: Id, at: Instant) returns (gone: bool)
      modifies this`trash
      ensures Now() == Take(old(Now()), sha, Purge(id), at)
      ensures gone <==> Now() != old(Now())
    {
      gone := false;
      if id in trash {
        var deleted := Deletion(Filter(decisions, OfCard(id)));
        if deleted.Some? && at.clock.now >= deleted.value + TRASH_SECONDS {
          trash := trash - {id};
          gone := true;
        }
      }
    }

    /** The undeleted cards' views, in board order. */
    method Listing(at: Instant) returns (views: seq<View>)
      ensures Listed(Now(), views, at)
    {
      hide DeriveMine;
      var left := cards.Keys;
      var found: seq<View> := [];
      while left != {}
        invariant left <= cards.Keys
        invariant forall v <- found :: v.id in cards && v == ViewOf(Now(), v.id, at) && !v.deleted
        invariant forall id | id in cards && id !in left && !ViewOf(Now(), id, at).deleted :: ViewOf(Now(), id, at) in found
        decreases left
      {
        var id :| id in left;
        left := left - {id};
        var card := Card(id, cards[id].fields, cards[id].events, Filter(decisions, OfCard(id)), receipts);
        var view := Shown(card, MomentFor(id, at));
        ShownId(card, MomentFor(id, at));
        if !view.deleted {
          found := found + [view];
        }
      }
      views := Arrange(found);
      ArrangeArranged(found);
      forall v: View ensures v in views <==> v in found {
        ArrangeMembers(found, v);
      }
    }

    /** The card on the board that already has this run. */
    method FindRun(views: seq<View>, runId: RunId, at: Instant) returns (known: Option<Id>)
      requires Listed(Now(), views, at)
      ensures known.Some? ==> RunKnown(Now(), known.value, runId, at)
      ensures known.None? ==> forall id :: !RunKnown(Now(), id, runId, at)
    {
      hide DeriveMine, Any, Filter;
      for i := 0 to |views|
        invariant forall j | 0 <= j < i :: !Any(views[j].runs, HasRunId(runId))
      {
        if Any(views[i].runs, HasRunId(runId)) {
          assert views[i] in views;
          return Some(views[i].id);
        }
      }
      known := None;
      forall id ensures !RunKnown(Now(), id, runId, at) {
        if id in cards && !ViewOf(Now(), id, at).deleted {
          assert ViewOf(Now(), id, at) in views;
        }
      }
    }

    /** Append the pick if the card, derived afresh, still wants it and its brief text reads true. */
    method TryPick(view: View, purpose: Purpose, only: Option<Id>, runId: RunId, at: Instant) returns (taken: bool)
      requires view.id in cards && view == ViewOf(Now(), view.id, at) && !view.deleted
      requires !Any(view.runs, HasRunId(runId))
      modifies this`cards
      ensures taken <==> Pickable(old(Now()), sha, view.id, purpose, only, at)
      ensures taken ==> Now() == Take(old(Now()), sha, PickIt(view.id, runId, purpose), at) != old(Now())
      ensures !taken ==> Now() == old(Now())
    {
      hide DeriveMine, Any, Filter;
      var id := view.id;
      taken := false;
      if (only.None? || only.value == id) && view.wants.wants == Some(purpose) {
        var card := Card(id, cards[id].fields, cards[id].events, Filter(decisions, OfCard(id)), receipts);
        var seen := Fresh(card, MomentFor(id, at));
        FreshBrief(card, MomentFor(id, at));
        if seen.wants.wants == Some(purpose) && BriefReads(sha, cards[id], seen.brief.hash) {
          taken := true;
          AppendEvent(id, PickedEvent(at.clock.now, Run(runId), runId, seen.brief.hash, purpose));
          assert |cards[id].events| == |old(cards)[id].events| + 1;
        }
      }
    }

    /** Before the model runs: the first card in board order that wants this run.  A run id the
        board already knows is answered with its card and changes nothing. */
    method Pick(purpose: Purpose, only: Option<Id>, runId: RunId, at: Instant) returns (taken: Option<Id>)
      modifies this
      ensures (exists id :: RunKnown(old(Now()), id, runId, at)) ==>
        Now() == old(Now()) && taken.Some? && RunKnown(old(Now()), taken.value, runId, at)
      ensures !(exists id :: RunKnown(old(Now()), id, runId, at)) ==>
        match taken
        case None => Now() == old(Now()) && forall id :: !Pickable(old(Now()), sha, id, purpose, only, at)
        case Some(id) =>
          && FirstPickable(old(Now()), sha, id, purpose, only, at)
          && Now() == Take(old(Now()), sha, PickIt(id, runId, purpose), at) != old(Now())
    {
      hide DeriveMine, Any, Take, Pickable;
      ghost var was := Now();
      var views := Listing(at);
      taken := FindRun(views, runId, at);
      if taken.Some? {
        return;
      }
      for i := 0 to |views|
        invariant Now() == was
        invariant forall j | 0 <= j < i :: !Pickable(was, sha, views[j].id, purpose, only, at)
      {
        assert views[i] in views && !RunKnown(was, views[i].id, runId, at);
        var ok := TryPick(views[i], purpose, only, runId, at);
        if ok {
          FirstFound(was, sha, views, i, purpose, only, at);
          return Some(views[i].id);
        }
      }
      NoneFound(was, sha, views, purpose, only, at);
    }
  }
}

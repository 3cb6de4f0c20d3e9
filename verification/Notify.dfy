/** The incident sweep: reconcile, prune, then send.  Every message is logged as a ghost note, and
    the class invariant is what the messages of whole runs satisfy. */
module Notify {
  import opened Seqs
  import opened Incidents

  datatype Kind = Opened | Closed | OpenSent | OpenFailed | RecoverySent | RecoveryFailed

  /** One thing that happened to a key, with the entry as it then stood. */
  datatype Note = Note(kind: Kind, key: Key, now: int, entry: Entry)

  function Get(m: map<Key, Entry>, k: Key): Option<Entry> {
    if k in m then Some(m[k]) else None
  }

  /** How often `kind` happened to the key since its entry was opened. */
  function Since(log: seq<Note>, k: Key, kind: Kind): nat {
    if log == [] then 0
    else if Last(log).key != k then Since(Init(log), k, kind)
    else if Last(log).kind.Opened? then 0
    else Since(Init(log), k, kind) + if Last(log).kind == kind then 1 else 0
  }

  predicate IsMessage(n: Note) { !n.kind.Opened? && !n.kind.Closed? }

  /** What was sent, or failed to be. */
  function Messages(log: seq<Note>): seq<Note> {
    Filter(log, IsMessage)
  }

  lemma SaysNothing(log: seq<Note>, n: Note)
    requires !IsMessage(n)
    ensures Messages(log + [n]) == Messages(log)
  {
    FilterSnoc(log, n, IsMessage);
  }

  /** How often it happened over the whole run. */
  function Total(log: seq<Note>, k: Key, kind: Kind): nat {
    if log == [] then 0
    else Total(Init(log), k, kind) + if Last(log).key == k && Last(log).kind == kind then 1 else 0
  }

  lemma SinceSnoc(log: seq<Note>, n: Note, k: Key, kind: Kind)
    ensures Since(log + [n], k, kind)
         == if n.key != k then Since(log, k, kind)
            else if n.kind.Opened? then 0
            else Since(log, k, kind) + if n.kind == kind then 1 else 0
    ensures Total(log + [n], k, kind) == Total(log, k, kind) + if n.key == k && n.kind == kind then 1 else 0
  {
    SnocParts(log, n);
  }

  // ---------- what the messages of a run satisfy ----------

  /** One entry's messages: at most one open, at most one recovery and only after it, and no more
      failed opens than the limit. */
  predicate SegmentFine(log: seq<Note>, k: Key, maxAttempts: nat) {
    && Since(log, k, OpenSent) <= 1
    && Since(log, k, RecoverySent) <= Since(log, k, OpenSent)
    && Since(log, k, OpenFailed) <= maxAttempts
  }

  /** So at every point of the run, for every key: hence for every entry there ever was. */
  ghost predicate LogFine(log: seq<Note>, maxAttempts: nat) {
    forall n | 0 <= n <= |log| :: forall k :: SegmentFine(log[..n], k, maxAttempts)
  }

  /** An open message left only for an entry then open, due and of an immediate class. */
  ghost predicate SentWhenDue(log: seq<Note>, d: Debounce, immediate: set<string>) {
    forall i | 0 <= i < |log| && log[i].kind.OpenSent? :: SendableNote(log[i], d, immediate)
  }

  predicate SendableNote(n: Note, d: Debounce, immediate: set<string>) {
    && n.entry.key == n.key && n.entry.resolvedAt.None?
    && n.entry.cls in immediate && DueToOpen(n.entry, n.now, d)
  }

  /** The entry's own marks agree with the log. */
  predicate Fits(e: Option<Entry>, log: seq<Note>, k: Key, maxAttempts: nat) {
    e.Some? ==>
      && e.value.key == k
      && Since(log, k, OpenSent) == (if e.value.notifiedAt.Some? then 1 else 0)
      && Since(log, k, RecoverySent) == (if e.value.recoveryNotifiedAt.Some? then 1 else 0)
      && (e.value.recoveryNotifiedAt.Some? ==> e.value.notifiedAt.Some? && e.value.resolvedAt.Some?)
      && (e.value.notifiedAt.None? ==> e.value.sendAttempts == Since(log, k, OpenFailed))
      && Since(log, k, OpenFailed) <= maxAttempts
  }

  /** A key that only flaps: opened once at most, still open, paged once at most, never recovered. */
  predicate Flat(e: Option<Entry>, log: seq<Note>, k: Key) {
    && (e.Some? ==> e.value.resolvedAt.None?)
    && Total(log, k, Opened) == (if e.Some? then 1 else 0)
    && Total(log, k, OpenSent) == (if e.Some? && e.value.notifiedAt.Some? then 1 else 0)
    && Total(log, k, RecoverySent) == 0
  }

  lemma LogFineSnoc(log: seq<Note>, n: Note, maxAttempts: nat)
    requires LogFine(log, maxAttempts) && SegmentFine(log + [n], n.key, maxAttempts)
    ensures LogFine(log + [n], maxAttempts)
  {
    assert log[..|log|] == log && (log + [n])[..|log| + 1] == log + [n];
    forall m | 0 <= m <= |log + [n]| ensures forall k :: SegmentFine((log + [n])[..m], k, maxAttempts) {
      if m <= |log| {
        assert (log + [n])[..m] == log[..m];
      } else {
        forall k ensures SegmentFine(log + [n], k, maxAttempts) {
          if k != n.key {
            SinceSnoc(log, n, k, OpenSent);
            SinceSnoc(log, n, k, RecoverySent);
            SinceSnoc(log, n, k, OpenFailed);
            assert SegmentFine(log[..|log|], k, maxAttempts);
          }
        }
      }
    }
  }

  lemma OthersKept(e: Option<Entry>, log: seq<Note>, n: Note, k: Key, maxAttempts: nat)
    requires n.key != k
    ensures Fits(e, log + [n], k, maxAttempts) <==> Fits(e, log, k, maxAttempts)
    ensures Flat(e, log + [n], k) <==> Flat(e, log, k)
  {
    SinceSnoc(log, n, k, OpenSent);
    SinceSnoc(log, n, k, RecoverySent);
    SinceSnoc(log, n, k, OpenFailed);
    SinceSnoc(log, n, k, Opened);
  }

  lemma OwnNote(log: seq<Note>, n: Note)
    ensures forall kind {:trigger Since(log + [n], n.key, kind)} ::
      Since(log + [n], n.key, kind) == if n.kind.Opened? then 0 else Since(log, n.key, kind) + if n.kind == kind then 1 else 0
    ensures forall kind {:trigger Total(log + [n], n.key, kind)} ::
      Total(log + [n], n.key, kind) == Total(log, n.key, kind) + if n.kind == kind then 1 else 0
  {
    forall kind { SinceSnoc(log, n, n.key, kind); }
  }

  /** A fresh entry starts a fresh segment of messages. */
  lemma OpenedFits(e: Option<Entry>, log: seq<Note>, item: Item, now: int, maxAttempts: nat)
    requires !IsOpen(e)
    ensures var entry := ObserveItem(e, item, now);
            var told := log + [Note(Opened, item.key, now, entry)];
            && Fits(Some(entry), told, item.key, maxAttempts) && SegmentFine(told, item.key, maxAttempts)
            && (Flat(e, log, item.key) ==> Flat(Some(entry), told, item.key))
  {
    OwnNote(log, Note(Opened, item.key, now, ObserveItem(e, item, now)));
  }

  lemma SeenAgainFits(e: Option<Entry>, log: seq<Note>, item: Item, now: int, maxAttempts: nat)
    requires IsOpen(e) && Fits(e, log, item.key, maxAttempts)
    ensures Fits(Some(ObserveItem(e, item, now)), log, item.key, maxAttempts)
    ensures Flat(e, log, item.key) ==> Flat(Some(ObserveItem(e, item, now)), log, item.key)
  {
  }

  /** A green sweep leaves the marks alone; a flapping entry stays flat while it stays open. */
  lemma GreenFits(e: Option<Entry>, log: seq<Note>, k: Key, now: int, d: Debounce, maxAttempts: nat)
    requires IsOpen(e) && Fits(e, log, k, maxAttempts)
    ensures e.Some? && GreenKey(e, now, d).Some?
    ensures var g := GreenKey(e, now, d);
            var told := if IsOpen(g) then log else log + [Note(Closed, k, now, g.value)];
            && (IsOpen(g) <==> g.value.resolvedAt.None?) && Fits(g, told, k, maxAttempts)
            && (Flat(e, log, k) && IsOpen(g) ==> Flat(g, told, k))
  {
    hide HeldGreen;
    OwnNote(log, Note(Closed, k, now, GreenKey(e, now, d).value));
  }

  lemma ClosedIsFine(log: seq<Note>, k: Key, now: int, e: Entry, maxAttempts: nat)
    requires SegmentFine(log, k, maxAttempts)
    ensures SegmentFine(log + [Note(Closed, k, now, e)], k, maxAttempts)
  {
    OwnNote(log, Note(Closed, k, now, e));
  }

  /** One key's entry is in step with the log of a run with these sweeps. */
  ghost predicate KeptIn(m: map<Key, Entry>, log: seq<Note>, hs: seq<Sweep>, k: Key, d: Debounce, maxAttempts: nat) {
    && Fits(Get(m, k), log, k, maxAttempts)
    && (Flaps(hs, k, d) ==> Flat(Get(m, k), log, k))
  }

  ghost predicate AllKept(m: map<Key, Entry>, log: seq<Note>, hs: seq<Sweep>, d: Debounce, maxAttempts: nat) {
    forall k :: KeptIn(m, log, hs, k, d, maxAttempts)
  }

  ghost predicate AllRefine(m: map<Key, Entry>, hs: seq<Sweep>, d: Debounce) {
    forall k :: Refines(Get(m, k), hs, k, d)
  }

  /** Dropping entries that are no longer open keeps every key in step. */
  lemma FewerKept(m: map<Key, Entry>, m': map<Key, Entry>, log: seq<Note>, hs: seq<Sweep>, d: Debounce, maxAttempts: nat)
    requires AllKept(m, log, hs, d, maxAttempts) && AllRefine(m, hs, d)
    requires forall k :: Get(m', k) == Get(m, k) || (Get(m', k).None? && k in m && m[k].resolvedAt.Some?)
    ensures AllKept(m', log, hs, d, maxAttempts) && AllRefine(m', hs, d)
  {
    hide Flaps, Spell, SpellSince, OpenSince, Since, LastSeen, Reds, RedFrom;
    forall k ensures KeptIn(m', log, hs, k, d, maxAttempts) && Refines(Get(m', k), hs, k, d) {
      assert KeptIn(m, log, hs, k, d, maxAttempts) && Refines(Get(m, k), hs, k, d);
    }
  }

  /** An open message, sent or failed, marks its entry. */
  lemma OpenMarks(e: Entry, log: seq<Note>, ok: bool, now: int, maxAttempts: nat)
    requires Fits(Some(e), log, e.key, maxAttempts) && e.notifiedAt.None? && e.sendAttempts < maxAttempts
    ensures var told := log + [Note(if ok then OpenSent else OpenFailed, e.key, now, e)];
            && SegmentFine(told, e.key, maxAttempts) && Fits(Some(MarkedOpen(e, ok, now)), told, e.key, maxAttempts)
            && (Flat(Some(e), log, e.key) ==> Flat(Some(MarkedOpen(e, ok, now)), told, e.key))
  {
    OwnNote(log, Note(if ok then OpenSent else OpenFailed, e.key, now, e));
  }

  /** So does a recovery message, and a flapping key has none. */
  lemma RecoveryMarks(e: Entry, log: seq<Note>, ok: bool, now: int, maxAttempts: nat)
    requires Fits(Some(e), log, e.key, maxAttempts) && SegmentFine(log, e.key, maxAttempts)
    requires e.resolvedAt.Some? && e.notifiedAt.Some? && e.recoveryNotifiedAt.None?
    ensures var told := log + [Note(if ok then RecoverySent else RecoveryFailed, e.key, now, e)];
            SegmentFine(told, e.key, maxAttempts) && Fits(Some(MarkedRecovery(e, ok, now)), told, e.key, maxAttempts)
    ensures !Flat(Some(e), log, e.key)
  {
    OwnNote(log, Note(if ok then RecoverySent else RecoveryFailed, e.key, now, e));
  }

  function MarkedOpen(e: Entry, ok: bool, now: int): Entry {
    if ok then e.(notifiedAt := Some(now)) else e.(sendAttempts := e.sendAttempts + 1)
  }

  function MarkedRecovery(e: Entry, ok: bool, now: int): Entry {
    if ok then e.(recoveryNotifiedAt := Some(now)) else e.(sendAttempts := e.sendAttempts + 1)
  }

  /** One key's entry changes, with or without a note: every other key stays in step. */
  lemma OneChanged(m: map<Key, Entry>, log: seq<Note>, hs: seq<Sweep>, k: Key, e: Entry, notes: seq<Note>,
                   d: Debounce, maxAttempts: nat)
    requires AllKept(m, log, hs, d, maxAttempts) && |notes| <= 1 && (notes != [] ==> notes[0].key == k)
    requires KeptIn(m[k := e], log + notes, hs, k, d, maxAttempts)
    ensures AllKept(m[k := e], log + notes, hs, d, maxAttempts)
  {
    hide Flaps, Fits, Flat;
    assert notes == [] || notes == [notes[0]];
    assert notes == [] ==> log + notes == log;
    var m', log' := m[k := e], log + notes;
    forall x ensures KeptIn(m', log', hs, x, d, maxAttempts) {
      assert KeptIn(m, log, hs, x, d, maxAttempts);
      if x != k && notes != [] {
        OthersKept(Get(m, x), log, notes[0], x, maxAttempts);
      }
    }
  }

  /** The sweep has gone green on the unseen ones of the `done` keys. */
  ghost predicate Greened(was: map<Key, Entry>, m: map<Key, Entry>, done: seq<Key>, s: Sweep, d: Debounce) {
    forall k :: Get(m, k) == if k in done && !Seen(s, k) then GreenKey(Get(was, k), s.now, d) else Get(was, k)
  }

  ghost predicate Ended(was: map<Key, Entry>, m: map<Key, Entry>, closed: seq<Key>) {
    forall k :: k in closed <==> (IsOpen(Get(was, k)) && !IsOpen(Get(m, k)))
  }

  lemma GreenedNone(was: map<Key, Entry>, s: Sweep, d: Debounce)
    ensures Greened(was, was, [], s, d) && Ended(was, was, [])
  {
  }

  lemma GreenedMore(was: map<Key, Entry>, m: map<Key, Entry>, done: seq<Key>, k: Key, s: Sweep, d: Debounce, closed: seq<Key>)
    requires Greened(was, m, done, s, d) && Ended(was, m, closed) && k !in done
    ensures Get(m, k) == Get(was, k)
    ensures Seen(s, k) || !IsOpen(Get(m, k)) ==> Greened(was, m, done + [k], s, d)
    ensures !Seen(s, k) && IsOpen(Get(m, k)) ==>
      var m' := m[k := GreenKey(Get(m, k), s.now, d).value];
      Greened(was, m', done + [k], s, d) && Ended(was, m', if IsOpen(Get(m', k)) then closed else closed + [k])
  {
    hide Seen, HeldGreen;
  }

  lemma GreenedAll(was: map<Key, Entry>, m: map<Key, Entry>, order: seq<Key>, s: Sweep, d: Debounce, closed: seq<Key>)
    requires Greened(was, m, order, s, d) && Ended(was, m, closed) && forall k | k !in order :: Get(was, k).None?
    ensures forall k :: Get(m, k) == if Seen(s, k) then Get(was, k) else GreenKey(Get(was, k), s.now, d)
    ensures forall k :: k in closed <==> (IsOpen(Get(was, k)) && !IsOpen(Get(m, k)))
  {
    hide Seen, HeldGreen;
  }

  // ---------- what sending does ----------

  function Pruned(e: Option<Entry>, now: int, retention: int): Option<Entry> {
    if e.Some? && Expired(e.value, now, retention) then None else e
  }

  /** An entry without what sending marks on it. */
  function Unmarked(e: Option<Entry>): Option<Entry> {
    if e.None? then None
    else Some(e.value.(notifiedAt := None, sendAttempts := 0, recoveryNotifiedAt := None, digestedAt := None))
  }

  ghost predicate OnlyMarked(was: map<Key, Entry>, m: map<Key, Entry>) {
    forall k :: Unmarked(Get(m, k)) == Unmarked(Get(was, k))
  }

  lemma OnlyMarkedChains(a: map<Key, Entry>, b: map<Key, Entry>, c: map<Key, Entry>)
    requires OnlyMarked(a, b) && OnlyMarked(b, c)
    ensures OnlyMarked(a, c)
  {
    forall k ensures Unmarked(Get(c, k)) == Unmarked(Get(a, k)) {
      assert Unmarked(Get(b, k)) == Unmarked(Get(a, k));
    }
  }

  function OpenNote(e: Entry, ok: bool, now: int): Note {
    Note(if ok then OpenSent else OpenFailed, e.key, now, e)
  }

  /** The first `n` pending entries were sent, in turn, each marked by its own answer. */
  ghost predicate OpensDone(was: map<Key, Entry>, m: map<Key, Entry>, log0: seq<Note>, log: seq<Note>, pending: seq<Entry>,
                            n: nat, replies: int -> bool, now: int)
    requires n <= |pending|
  {
    && |log| == |log0| + n && log0 <= log
    && (forall j | 0 <= j < n :: log[|log0| + j] == OpenNote(pending[j], replies(j), now))
    && (forall j | 0 <= j < n :: Get(m, pending[j].key) == Some(MarkedOpen(pending[j], replies(j), now)))
    && (forall k | k !in KeysOf(pending[..n]) :: Get(m, k) == Get(was, k))
  }

  function KeysOf(es: seq<Entry>): set<Key> {
    set i | 0 <= i < |es| :: es[i].key
  }

  lemma OpensMore(was: map<Key, Entry>, m: map<Key, Entry>, log0: seq<Note>, log: seq<Note>, pending: seq<Entry>,
                  n: nat, replies: int -> bool, now: int)
    requires n < |pending| && OpensDone(was, m, log0, log, pending, n, replies, now)
    requires forall i, j | 0 <= i < j < |pending| :: pending[i].key != pending[j].key
    ensures OpensDone(was, m[pending[n].key := MarkedOpen(pending[n], replies(n), now)], log0,
                      log + [OpenNote(pending[n], replies(n), now)], pending, n + 1, replies, now)
  {
    hide MarkedOpen, OpenNote;
    KeysMore(pending, n);
    hide KeysOf;
  }

  lemma KeysMore(es: seq<Entry>, n: nat)
    requires n < |es|
    ensures KeysOf(es[..n + 1]) == KeysOf(es[..n]) + {es[n].key}
  {
    var more := es[..n + 1];
    assert more == es[..n] + [es[n]];
    assert forall i | 0 <= i < n :: more[i] == es[..n][i];
    assert forall k | k in KeysOf(es[..n]) :: k in KeysOf(more) by {
      forall k | k in KeysOf(es[..n]) ensures k in KeysOf(more) {
        var i :| 0 <= i < |es[..n]| && es[..n][i].key == k;
        assert more[i].key == k;
      }
    }
    assert more[n].key in KeysOf(more);
  }

  lemma NoneSent(was: map<Key, Entry>, log0: seq<Note>, pending: seq<Entry>, replies: int -> bool, now: int)
    ensures OpensDone(was, was, log0, log0, pending, 0, replies, now)
  {
  }

  lemma StillPending(was: map<Key, Entry>, m: map<Key, Entry>, log0: seq<Note>, log: seq<Note>, pending: seq<Entry>,
                     n: nat, replies: int -> bool, now: int)
    requires n < |pending| && OpensDone(was, m, log0, log, pending, n, replies, now)
    requires forall i, j | 0 <= i < j < |pending| :: pending[i].key != pending[j].key
    ensures Get(m, pending[n].key) == Get(was, pending[n].key)
  {
    assert forall i | 0 <= i < n :: pending[..n][i] == pending[i];
  }

  lemma OpensOnlyMark(was: map<Key, Entry>, m: map<Key, Entry>, log0: seq<Note>, log: seq<Note>, pending: seq<Entry>,
                      n: nat, replies: int -> bool, now: int)
    requires n <= |pending| && OpensDone(was, m, log0, log, pending, n, replies, now)
    requires forall i | 0 <= i < |pending| :: Get(was, pending[i].key) == Some(pending[i])
    ensures OnlyMarked(was, m)
  {
    forall k ensures Unmarked(Get(m, k)) == Unmarked(Get(was, k)) {
      if k in KeysOf(pending[..n]) {
        var i :| 0 <= i < n && pending[..n][i].key == k;
        assert Get(m, pending[i].key) == Some(MarkedOpen(pending[i], replies(i), now));
      }
    }
  }

  /** Resolved, once reported open, and its recovery not yet reported. */
  predicate Recoverable(e: Entry) {
    e.resolvedAt.Some? && e.notifiedAt.Some? && e.recoveryNotifiedAt.None?
  }

  /** Every recoverable entry among the first `n`, in turn, marked by its own answer. */
  function RecoveriesAfter(m: map<Key, Entry>, order: seq<Key>, replies: int -> bool, now: int, n: nat): map<Key, Entry>
    requires n <= |order|
  {
    if n == 0 then m
    else
      var before, k := RecoveriesAfter(m, order, replies, now, n - 1), order[n - 1];
      if k in before && Recoverable(before[k]) then before[k := MarkedRecovery(before[k], replies(n - 1), now)] else before
  }

  function RecoveryNotes(m: map<Key, Entry>, order: seq<Key>, replies: int -> bool, now: int, n: nat): seq<Note>
    requires n <= |order|
  {
    if n == 0 then []
    else
      var before, k := RecoveriesAfter(m, order, replies, now, n - 1), order[n - 1];
      RecoveryNotes(m, order, replies, now, n - 1)
      + if k in before && Recoverable(before[k])
        then [Note(if replies(n - 1) then RecoverySent else RecoveryFailed, k, now, before[k])] else []
  }

  lemma RecoveriesNone(m: map<Key, Entry>, order: seq<Key>, replies: int -> bool, now: int)
    ensures RecoveriesAfter(m, order, replies, now, 0) == m && RecoveryNotes(m, order, replies, now, 0) == []
  {
  }

  lemma RecoveriesStep(m: map<Key, Entry>, order: seq<Key>, replies: int -> bool, now: int, i: nat, log: seq<Note>)
    requires i < |order|
    ensures var before, k := RecoveriesAfter(m, order, replies, now, i), order[i];
            var notes, more := log + RecoveryNotes(m, order, replies, now, i), log + RecoveryNotes(m, order, replies, now, i + 1);
            if k in before && Recoverable(before[k]) then
              && RecoveriesAfter(m, order, replies, now, i + 1) == before[k := MarkedRecovery(before[k], replies(i), now)]
              && more == notes + [Note(if replies(i) then RecoverySent else RecoveryFailed, k, now, before[k])]
            else RecoveriesAfter(m, order, replies, now, i + 1) == before && more == notes
  {
    hide MarkedRecovery, Recoverable;
  }

  lemma {:induction false} RecoveriesOnlyMark(m: map<Key, Entry>, order: seq<Key>, replies: int -> bool, now: int, n: nat)
    requires n <= |order|
    ensures OnlyMarked(m, RecoveriesAfter(m, order, replies, now, n))
  {
    if n > 0 {
      RecoveriesOnlyMark(m, order, replies, now, n - 1);
      OnlyMarkedChains(m, RecoveriesAfter(m, order, replies, now, n - 1), RecoveriesAfter(m, order, replies, now, n));
    }
  }

  /** What a resolved, reported entry's one recovery came to. */
  lemma {:induction false} RecoveriesAre(m: map<Key, Entry>, order: seq<Key>, replies: int -> bool, now: int, n: nat, i: nat)
    requires n <= |order| && i < |order| && (forall a, b | 0 <= a < b < |order| :: order[a] != order[b])
    ensures Get(RecoveriesAfter(m, order, replies, now, n), order[i])
         == if i < n && order[i] in m && Recoverable(m[order[i]])
            then Some(MarkedRecovery(m[order[i]], replies(i), now)) else Get(m, order[i])
  {
    hide MarkedRecovery, Recoverable;
    if n > 0 {
      RecoveriesAre(m, order, replies, now, n - 1, i);
      RecoveriesAre(m, order, replies, now, n - 1, n - 1);
    }
  }

  // ---------- the state ----------

  /** A dictionary's keys in insertion order. */
  ghost predicate InDict(order: seq<Key>, m: map<Key, Entry>) {
    && (forall i, j | 0 <= i < j < |order| :: order[i] != order[j])
    && (forall k :: k in order <==> k in m)
  }

  predicate Expired(e: Entry, now: int, retention: int) {
    e.resolvedAt.Some? && e.resolvedAt.value < now - retention
  }

  function FirstSeenOf(e: Entry): int { e.firstSeen }

  function Entries(order: seq<Key>, m: map<Key, Entry>): seq<Entry>
    requires forall i | 0 <= i < |order| :: order[i] in m
  {
    seq(|order|, i requires 0 <= i < |order| => m[order[i]])
  }

  /** The opens a sweep may send, earliest incident first. */
  function Pending(order: seq<Key>, m: map<Key, Entry>, now: int, d: Debounce, immediate: set<string>,
                   maxAttempts: nat): seq<Entry>
    requires forall i | 0 <= i < |order| :: order[i] in m
  {
    Filter(Ordered(Filter(Entries(order, m), IsUnresolved), FirstSeenOf), Sendable(now, d, immediate, maxAttempts))
  }

  /** Each pending entry is the dictionary's own, due, and pending once. */
  lemma PendingAre(order: seq<Key>, m: map<Key, Entry>, now: int, d: Debounce, immediate: set<string>, maxAttempts: nat)
    requires InDict(order, m) && forall k | k in m :: m[k].key == k
    ensures var es := Pending(order, m, now, d, immediate, maxAttempts);
            && (forall i | 0 <= i < |es| :: es[i].key in m && m[es[i].key] == es[i]
                                            && Sendable(now, d, immediate, maxAttempts)(es[i]))
            && (forall i, j | 0 <= i < j < |es| :: es[i].key != es[j].key)
  {
    var all := Entries(order, m);
    assert forall e | e in all :: e.key in m && m[e.key] == e;
    SortedOnce(all);
    var sorted := Ordered(Filter(all, IsUnresolved), FirstSeenOf);
    var p := Sendable(now, d, immediate, maxAttempts);
    hide Filter, Ordered, Sendable, InDict, Entries;
    FilterMembers(sorted, p);
    FilterPairs(sorted, p, DifferentKeys());
    var es := Filter(sorted, p);
    assert es == Pending(order, m, now, d, immediate, maxAttempts);
    forall i | 0 <= i < |es| ensures es[i].key in m && m[es[i].key] == es[i] {
      assert es[i] in sorted;
    }
    forall i, j | 0 <= i < j < |es| ensures es[i].key != es[j].key {
      assert DifferentKeys()(es[i], es[j]);
    }
  }

  /** Entries with keys of their own, once filtered and sorted, still are those entries. */
  lemma SortedOnce(all: seq<Entry>)
    requires forall i, j | 0 <= i < j < |all| :: all[i].key != all[j].key
    ensures var sorted := Ordered(Filter(all, IsUnresolved), FirstSeenOf);
            && (forall e | e in sorted :: e in all)
            && (forall i, j | 0 <= i < j < |sorted| :: DifferentKeys()(sorted[i], sorted[j]))
  {
    hide Filter, Ordered;
    var open := Filter(all, IsUnresolved);
    FilterMembers(all, IsUnresolved);
    forall i, j | 0 <= i < j < |all| ensures DifferentKeys()(all[i], all[j]) { }
    FilterPairs(all, IsUnresolved, DifferentKeys());
    forall i, j | 0 <= i < |open| && 0 <= j < |open| && i != j ensures DifferentKeys()(open[i], open[j]) {
      assert i < j ==> DifferentKeys()(open[i], open[j]);
      assert j < i ==> DifferentKeys()(open[j], open[i]);
    }
    OrderedKeepsPairs(open, FirstSeenOf, DifferentKeys());
    OrderedMembers(open, FirstSeenOf);
    var sorted := Ordered(open, FirstSeenOf);
    forall e | e in sorted ensures e in all {
      assert e in multiset(sorted);
      assert e in open;
    }
  }

  predicate IsUnresolved(e: Entry) { e.resolvedAt.None? }

  function Sendable(now: int, d: Debounce, immediate: set<string>, maxAttempts: nat): Entry -> bool {
    (e: Entry) => IsUnresolved(e) && e.cls in immediate && e.notifiedAt.None? && e.sendAttempts < maxAttempts
                  && DueToOpen(e, now, d)
  }

  function DifferentKeys(): (Entry, Entry) -> bool {
    (a: Entry, b: Entry) => a.key != b.key
  }

  class Monitor {
    var incidents: map<Key, Entry>
    var order: seq<Key>
    var lastDigestAt: Option<int>
    const debounce: Debounce
    const immediate: set<string>
    const maxSends: nat
    const maxAttempts: nat
    const retention: int

    ghost var history: seq<Sweep>
    ghost var log: seq<Note>

    /** The counters refine the sweep history, and the messages are fine for every key. */
    ghost predicate Valid()
      reads this
    {
      && InDict(order, incidents)
      && LogFine(log, maxAttempts)
      && SentWhenDue(log, debounce, immediate)
      && AllKept(incidents, log, history, debounce, maxAttempts)
      && AllRefine(incidents, history, debounce)
    }

    constructor (debounce: Debounce, immediate: set<string>, maxSends: nat, maxAttempts: nat, retention: int)
      ensures Valid() && history == [] && log == [] && incidents == map[]
    {
      this.debounce, this.immediate, this.maxSends := debounce, immediate, maxSends;
      this.maxAttempts, this.retention := maxAttempts, retention;
      incidents, order, lastDigestAt := map[], [], None;
      history, log := [], [];
    }

    /** A pruned entry was resolved longer ago than the retention. */
    method Prune(now: int)
      requires Valid()
      modifies this`incidents, this`order
      ensures Valid()
      ensures forall k :: k in incidents <==> (k in old(incidents) && !Expired(old(incidents)[k], now, retention))
      ensures forall k | k in incidents :: incidents[k] == old(incidents)[k]
    {
      var kept: seq<Key> := [];
      var m: map<Key, Entry> := map[];
      for i := 0 to |order|
        invariant InDict(kept, m)
        invariant forall k :: k in m <==> (k in order[..i] && !Expired(incidents[k], now, retention))
        invariant forall k | k in m :: k in incidents && m[k] == incidents[k]
      {
        var k := order[i];
        assert k !in order[..i];
        assert order[..i + 1] == order[..i] + [k];
        if !Expired(incidents[k], now, retention) {
          kept, m := kept + [k], m[k := incidents[k]];
        }
      }
      assert order[..|order|] == order;
      incidents, order := m, kept;
      FewerKept(old(incidents), incidents, log, history, debounce, maxAttempts);
    }

    /** Between the two halves of a sweep: the messages are fine, the counters not yet the history's. */
    ghost predicate Steady(hs: seq<Sweep>)
      reads this
    {
      && InDict(order, incidents)
      && LogFine(log, maxAttempts)
      && SentWhenDue(log, debounce, immediate)
      && AllKept(incidents, log, hs, debounce, maxAttempts)
    }

    /** One observed item: a new entry, or one more red for the open one. */
    method ObserveOne(item: Item, now: int, ghost hs: seq<Sweep>) returns (begun: bool)
      requires Steady(hs)
      modifies this`incidents, this`order, this`log
      ensures Steady(hs)
      ensures incidents == old(incidents)[item.key := ObserveItem(Get(old(incidents), item.key), item, now)]
      ensures begun <==> !IsOpen(Get(old(incidents), item.key))
      ensures log == if begun then old(log) + [Note(Opened, item.key, now, incidents[item.key])] else old(log)
      ensures Messages(log) == Messages(old(log))
    {
      hide Flaps, LogFine, SentWhenDue, Fits, Flat, SegmentFine, ObserveItem, IsOpen, Messages;
      var k := item.key;
      assert KeptIn(incidents, log, hs, k, debounce, maxAttempts);
      begun := !IsOpen(Get(incidents, k));
      var e := ObserveItem(Get(incidents, k), item, now);
      ghost var notes := if begun then [Note(Opened, k, now, e)] else [];
      if begun {
        OpenedFits(Get(incidents, k), log, item, now, maxAttempts);
      } else {
        SeenAgainFits(Get(incidents, k), log, item, now, maxAttempts);
        assert log + notes == log;
      }
      OneChanged(incidents, log, hs, k, e, notes, debounce, maxAttempts);
      if begun {
        SaysNothing(log, Note(Opened, k, now, e));
        Tell(Note(Opened, k, now, e));
      }
      if k !in incidents {
        order := order + [k];
      }
      incidents := incidents[k := e];
    }

    /** Every item the sweep observed, in turn. */
    method ObserveAll(s: Sweep) returns (begun: seq<Key>, updated: seq<Key>)
      requires Steady(history)
      modifies this`incidents, this`order, this`log
      ensures Steady(history)
      ensures forall k :: Get(incidents, k) == ObserveKey(Get(old(incidents), k), s.observed, k, s.now)
      ensures forall k :: k in begun + updated <==> Seen(s, k)
      ensures forall k | k in begun :: !IsOpen(Get(old(incidents), k))
      ensures forall k | k in updated && k !in begun :: IsOpen(Get(old(incidents), k))
      ensures Messages(log) == Messages(old(log))
    {
      hide Steady, Messages, ObserveItem;
      begun, updated := [], [];
      var items := s.observed;
      for i := 0 to |items|
        invariant Steady(history) && Messages(log) == Messages(old(log))
        invariant forall k :: Get(incidents, k) == ObserveKey(Get(old(incidents), k), items[..i], k, s.now)
        invariant forall k :: k in begun + updated <==> Occurrences(items[..i], k) > 0
        invariant forall k | k in begun :: !IsOpen(Get(old(incidents), k))
        invariant forall k | k in updated && k !in begun :: IsOpen(Get(old(incidents), k))
      {
        assert Init(items[..i + 1]) == items[..i];
        ghost var before := Get(incidents, items[i].key);
        var isNew := ObserveOne(items[i], s.now, history);
        ObservedBefore(Get(old(incidents), items[i].key), items[..i], items[i].key, s.now);
        if isNew {
          begun := begun + [items[i].key];
        } else {
          updated := updated + [items[i].key];
        }
      }
      assert items[..|items|] == items;
    }

    /** One key no item named, on a healthy sweep. */
    method GreenOne(k: Key, now: int, ghost hs: seq<Sweep>) returns (closed: bool)
      requires Steady(hs) && IsOpen(Get(incidents, k))
      requires Flaps(hs, k, debounce) ==> IsOpen(GreenKey(Get(incidents, k), now, debounce))
      modifies this`incidents, this`log
      ensures Steady(hs)
      ensures incidents == old(incidents)[k := GreenKey(Get(old(incidents), k), now, debounce).value]
      ensures closed <==> !IsOpen(Get(incidents, k))
      ensures log == if closed then old(log) + [Note(Closed, k, now, incidents[k])] else old(log)
      ensures Messages(log) == Messages(old(log))
    {
      hide Flaps, LogFine, SentWhenDue, Fits, Flat, SegmentFine, GreenKey, IsOpen, Messages;
      assert KeptIn(incidents, log, hs, k, debounce, maxAttempts);
      GreenFits(Get(incidents, k), log, k, now, debounce, maxAttempts);
      var e := GreenKey(Get(incidents, k), now, debounce).value;
      closed := e.resolvedAt.Some?;
      ghost var notes := if closed then [Note(Closed, k, now, e)] else [];
      if !closed {
        assert log + notes == log;
      }
      OneChanged(incidents, log, hs, k, e, notes, debounce, maxAttempts);
      if closed {
        LogFineNow(log, k, maxAttempts);
        ClosedIsFine(log, k, now, e, maxAttempts);
        SaysNothing(log, Note(Closed, k, now, e));
        Tell(Note(Closed, k, now, e));
      }
      incidents := incidents[k := e];
    }

    lemma DictOnce(hs: seq<Sweep>)
      requires Steady(hs)
      ensures forall i, j | 0 <= i < j < |order| :: order[i] != order[j]
      ensures forall k | k !in order :: Get(incidents, k).None?
    {
    }

    /** Every open key the healthy sweep did not observe. */
    method GreenAll(s: Sweep, ghost hs: seq<Sweep>) returns (closed: seq<Key>)
      requires Steady(hs)
      requires forall k | !Seen(s, k) && IsOpen(Get(incidents, k)) && Flaps(hs, k, debounce) ::
        IsOpen(GreenKey(Get(incidents, k), s.now, debounce))
      modifies this`incidents, this`log
      ensures Steady(hs)
      ensures forall k :: (Get(incidents, k)
        == if Seen(s, k) then Get(old(incidents), k) else GreenKey(Get(old(incidents), k), s.now, debounce))
      ensures forall k :: k in closed <==> (IsOpen(Get(old(incidents), k)) && !IsOpen(Get(incidents, k)))
      ensures Messages(log) == Messages(old(log))
    {
      hide Messages, LogFine, SentWhenDue, AllKept, Flaps, Seen, GreenKey, IsOpen, InDict, Steady, Greened, Ended;
      DictOnce(hs);
      ghost var was := incidents;
      closed := [];
      GreenedNone(was, s, debounce);
      for i := 0 to |order|
        invariant Steady(hs) && order == old(order) && Messages(log) == Messages(old(log))
        invariant Greened(was, incidents, order[..i], s, debounce) && Ended(was, incidents, closed)
      {
        var k := order[i];
        assert k !in order[..i];
        assert order[..i + 1] == order[..i] + [k];
        GreenedMore(was, incidents, order[..i], k, s, debounce, closed);
        if !Seen(s, k) && IsOpen(Get(incidents, k)) {
          var gone := GreenOne(k, s.now, hs);
          if gone {
            closed := closed + [k];
          }
        }
      }
      assert order[..|order|] == order;
      GreenedAll(was, incidents, order, s, debounce, closed);
    }

    /** One sweep's observations reconciled with the state. */
    method Reconcile(s: Sweep) returns (begun: seq<Key>, updated: seq<Key>, closed: seq<Key>)
      requires Valid()
      modifies this`incidents, this`order, this`history, this`log
      ensures Valid() && history == old(history) + [s]
      ensures forall k :: Get(incidents, k) == KeyStep(Get(old(incidents), k), s, k, debounce)
      ensures forall k :: k in begun + updated <==> Seen(s, k)
      ensures forall k | k in begun :: !IsOpen(Get(old(incidents), k))
      ensures forall k :: k in closed <==> (IsOpen(Get(old(incidents), k)) && !IsOpen(Get(incidents, k)))
      ensures Messages(log) == Messages(old(log))
    {
      hide Messages, LogFine, SentWhenDue, Fits, Flat, Refines, Flaps, SpellHolds, GreenKey, HealthyGreen, Seen;
      ghost var was, hs := incidents, history + [s];
      begun, updated := ObserveAll(s);
      closed := [];
      forall k ensures KeptIn(incidents, log, hs, k, debounce, maxAttempts) {
        assert KeptIn(incidents, log, history, k, debounce, maxAttempts);
        if Flaps(hs, k, debounce) {
          FlappingStaysOpen(history, s, k, debounce);
        }
      }
      assert Steady(hs);
      forall k | !Seen(s, k) ensures Get(incidents, k) == Get(was, k) {
        UnseenKept(Get(was, k), s, k);
      }
      if s.sourcesOk {
        forall k | !Seen(s, k) && IsOpen(Get(incidents, k)) && Flaps(hs, k, debounce)
          ensures IsOpen(GreenKey(Get(incidents, k), s.now, debounce))
        {
          FlapperHolds(Get(was, k), history, s, k, debounce);
        }
        closed := GreenAll(s, hs);
      }
      history := hs;
      forall k ensures Get(incidents, k) == KeyStep(Get(was, k), s, k, debounce) {
        KeyStepIs(Get(was, k), s, k, debounce);
      }
      forall k ensures Refines(Get(incidents, k), history, k, debounce) {
        RefinesStep(Get(was, k), old(history), s, k, debounce);
      }
      forall k ensures k in closed <==> (IsOpen(Get(was, k)) && !IsOpen(Get(incidents, k))) {
        ClosedMeans(Get(was, k), s, k, debounce);
      }
    }

    /** Log one message about a key whose entry has just been marked. */
    ghost method Tell(n: Note)
      requires SegmentFine(log + [n], n.key, maxAttempts) && LogFine(log, maxAttempts)
      requires n.kind.OpenSent? ==> SendableNote(n, debounce, immediate)
      requires SentWhenDue(log, debounce, immediate)
      modifies this`log
      ensures log == old(log) + [n] && LogFine(log, maxAttempts) && SentWhenDue(log, debounce, immediate)
    {
      hide SegmentFine;
      LogFineSnoc(log, n, maxAttempts);
      log := log + [n];
    }

    /** Deliver one open message; a failure is counted on the entry. */
    method DeliverOpen(e: Entry, ok: bool, now: int)
      requires Valid() && Get(incidents, e.key) == Some(e)
      requires Sendable(now, debounce, immediate, maxAttempts)(e)
      modifies this`incidents, this`log
      ensures Valid()
      ensures incidents == old(incidents)[e.key := MarkedOpen(e, ok, now)]
      ensures log == old(log) + [Note(if ok then OpenSent else OpenFailed, e.key, now, e)]
    {
      hide Refines, Flaps, LogFine, DueToOpen, Fits, Flat, SegmentFine, SentWhenDue, AllKept, AllRefine;
      var n := Note(if ok then OpenSent else OpenFailed, e.key, now, e);
      KeptNow(e.key);
      OpenMarks(e, log, ok, now, maxAttempts);
      OneChanged(incidents, log, history, e.key, MarkedOpen(e, ok, now), [n], debounce, maxAttempts);
      RefinesMarked(incidents, e, MarkedOpen(e, ok, now), history, debounce);
      Tell(n);
      incidents := incidents[e.key := MarkedOpen(e, ok, now)];
    }

    lemma KeptNow(k: Key)
      requires Valid()
      ensures KeptIn(incidents, log, history, k, debounce, maxAttempts) && SegmentFine(log, k, maxAttempts)
    {
      LogFineNow(log, k, maxAttempts);
    }

    /** The first pending incidents, earliest first, up to the limit; the rest wait for the next sweep. */
    method SendOpens(now: int, replies: int -> bool)
      requires Valid()
      modifies this`incidents, this`log
      ensures Valid() && OnlyMarked(old(incidents), incidents)
      ensures var pending := old(Pending(order, incidents, now, debounce, immediate, maxAttempts));
              OpensDone(old(incidents), incidents, old(log), log, pending, Min(|pending|, maxSends), replies, now)
    {
      hide Refines, LogFine, SentWhenDue, Fits, Flat, Flaps, AllKept, AllRefine, OpensDone, InDict, Pending, OnlyMarked, Sendable;
      EntriesKeyed();
      ghost var was, log0 := incidents, log;
      var pending := Pending(order, incidents, now, debounce, immediate, maxAttempts);
      PendingAre(order, incidents, now, debounce, immediate, maxAttempts);
      var n := Min(|pending|, maxSends);
      NoneSent(was, log0, pending, replies, now);
      for i := 0 to n
        invariant Valid()
        invariant OpensDone(was, incidents, log0, log, pending, i, replies, now)
      {
        StillPending(was, incidents, log0, log, pending, i, replies, now);
        OpensMore(was, incidents, log0, log, pending, i, replies, now);
        DeliverOpen(pending[i], replies(i), now);
      }
      OpensOnlyMark(was, incidents, log0, log, pending, n, replies, now);
    }

    lemma EntriesKeyed()
      requires Valid()
      ensures forall k | k in incidents :: incidents[k].key == k
      ensures forall i | 0 <= i < |order| :: order[i] in incidents
    {
      forall k | k in incidents ensures incidents[k].key == k {
        assert KeptIn(incidents, log, history, k, debounce, maxAttempts);
      }
    }

    /** Deliver one recovery; a failure is counted on the entry. */
    method DeliverRecovery(k: Key, ok: bool, now: int)
      requires Valid() && k in incidents
      requires incidents[k].resolvedAt.Some? && incidents[k].notifiedAt.Some? && incidents[k].recoveryNotifiedAt.None?
      modifies this`incidents, this`log
      ensures Valid()
      ensures incidents == old(incidents)[k := MarkedRecovery(old(incidents)[k], ok, now)]
      ensures log == old(log) + [Note(if ok then RecoverySent else RecoveryFailed, k, now, old(incidents)[k])]
    {
      hide Refines, Flaps, LogFine, Flat, SegmentFine, SentWhenDue, AllKept, AllRefine;
      var e := incidents[k];
      KeptNow(k);
      assert e.key == k;
      hide Fits;
      var n := Note(if ok then RecoverySent else RecoveryFailed, k, now, e);
      RecoveryMarks(e, log, ok, now, maxAttempts);
      OneChanged(incidents, log, history, k, MarkedRecovery(e, ok, now), [n], debounce, maxAttempts);
      RefinesMarked(incidents, e, MarkedRecovery(e, ok, now), history, debounce);
      Tell(n);
      incidents := incidents[k := MarkedRecovery(e, ok, now)];
    }

    /** Every resolved incident once reported open and not yet reported closed, in the dictionary's order. */
    method SendRecoveries(now: int, replies: int -> bool)
      requires Valid()
      modifies this`incidents, this`log
      ensures Valid() && OnlyMarked(old(incidents), incidents)
      ensures incidents == RecoveriesAfter(old(incidents), order, replies, now, |order|)
      ensures log == old(log) + RecoveryNotes(old(incidents), order, replies, now, |order|)
    {
      hide Messages, LogFine, SentWhenDue, AllKept, AllRefine, OnlyMarked, MarkedRecovery, RecoveriesAfter, RecoveryNotes;
      ghost var was, log0 := incidents, log;
      RecoveriesNone(was, order, replies, now);
      for i := 0 to |order|
        invariant Valid()
        invariant incidents == RecoveriesAfter(was, order, replies, now, i)
        invariant log == log0 + RecoveryNotes(was, order, replies, now, i)
      {
        var k := order[i];
        var e := incidents[k];
        RecoveriesStep(was, order, replies, now, i, log0);
        if e.resolvedAt.Some? && e.notifiedAt.Some? && e.recoveryNotifiedAt.None? {
          DeliverRecovery(k, replies(i), now);
        }
      }
      RecoveriesOnlyMark(was, order, replies, now, |order|);
    }

    /** The daily digest: due from the gate on, once until the gate moves. */
    method SendDigest(now: int, gate: int, forced: bool, ok: bool) returns (listed: seq<Key>)
      requires Valid()
      modifies this`incidents, this`lastDigestAt
      ensures Valid() && OnlyMarked(old(incidents), incidents)
      ensures lastDigestAt == if forced || DigestDue(old(lastDigestAt), now, gate) then Some(now) else old(lastDigestAt)
      ensures forall k :: k in listed <==>
        ((forced || DigestDue(old(lastDigestAt), now, gate)) && IsOpen(Get(old(incidents), k)))
      ensures forall k :: (Get(incidents, k)
        == if ok && k in listed then Some(old(incidents)[k].(digestedAt := Some(now))) else Get(old(incidents), k))
    {
      hide Messages, LogFine, SentWhenDue, Flaps, Fits, Flat, Refines;
      listed := [];
      if !forced && !DigestDue(lastDigestAt, now, gate) {
        return;
      }
      lastDigestAt := Some(now);
      for i := 0 to |order|
        invariant forall k :: k in listed <==> (k in order[..i] && IsOpen(Get(incidents, k)))
      {
        assert order[..i + 1] == order[..i] + [order[i]];
        if IsOpen(Get(incidents, order[i])) {
          listed := listed + [order[i]];
        }
      }
      assert order[..|order|] == order;
      if ok {
        ghost var was := incidents;
        incidents := map k | k in incidents :: if k in listed then incidents[k].(digestedAt := Some(now)) else incidents[k];
        forall k ensures KeptIn(incidents, log, history, k, debounce, maxAttempts) && Refines(Get(incidents, k), history, k, debounce) {
          assert KeptIn(was, log, history, k, debounce, maxAttempts) && Refines(Get(was, k), history, k, debounce);
          DigestedAlike(Get(was, k), Get(incidents, k), log, k, maxAttempts, history, debounce);
        }
      }
    }

    /** One sweep, as the timer runs it: what it observes decides every entry, sending only marks them,
        and nothing leaves without a channel. */
    method Run(s: Sweep, channel: bool, opens: int -> bool, recoveries: int -> bool, gate: int, digest: bool, digestOk: bool)
      requires Valid()
      modifies this
      ensures Valid() && history == old(history) + [s]
      ensures forall k :: (Unmarked(Get(incidents, k))
        == Unmarked(Pruned(KeyStep(Get(old(incidents), k), s, k, debounce), s.now, retention)))
      ensures !channel ==> (forall k :: (Get(incidents, k)
        == Pruned(KeyStep(Get(old(incidents), k), s, k, debounce), s.now, retention)))
      ensures !channel ==> lastDigestAt == old(lastDigestAt) && Messages(log) == Messages(old(log))
      ensures channel ==>
        lastDigestAt == if digest || DigestDue(old(lastDigestAt), s.now, gate) then Some(s.now) else old(lastDigestAt)
    {
      hide Messages, LogFine, SentWhenDue, Flaps, AllKept, AllRefine, KeyStep, InDict, IsOpen, Seen, Valid, OpensDone, OnlyMarked, Expired;
      var begun, updated, closed := Reconcile(s);
      ghost var settled := incidents;
      Prune(s.now);
      forall k ensures Get(incidents, k) == Pruned(Get(settled, k), s.now, retention) { }
      ghost var kept := incidents;
      OnlyMarkedAtFirst(kept);
      if channel {
        SendOpens(s.now, opens);
        ghost var paged := incidents;
        SendRecoveries(s.now, recoveries);
        OnlyMarkedChains(kept, paged, incidents);
        ghost var recovered := incidents;
        var listed := SendDigest(s.now, gate, digest, digestOk);
        OnlyMarkedChains(kept, recovered, incidents);
      }
      MarksAre(kept, incidents);
    }
  }

  lemma OnlyMarkedAtFirst(m: map<Key, Entry>)
    ensures OnlyMarked(m, m)
  {
  }

  lemma MarksAre(was: map<Key, Entry>, m: map<Key, Entry>)
    requires OnlyMarked(was, m)
    ensures forall k :: Unmarked(Get(m, k)) == Unmarked(Get(was, k))
  {
  }

  predicate DigestDue(last: Option<int>, now: int, gate: int) {
    now >= gate && (last.None? || last.value < gate)
  }

  /** After a digest no other is due until the gate moves past it. */
  lemma DigestOncePerGate(last: Option<int>, now: int, gate: int, later: int)
    requires DigestDue(last, now, gate)
    ensures !DigestDue(Some(now), later, gate)
    ensures forall gate' | gate' > now :: DigestDue(Some(now), later, gate') <==> later >= gate'
  {
  }

  lemma DigestedAlike(e: Option<Entry>, e': Option<Entry>, log: seq<Note>, k: Key, maxAttempts: nat, hs: seq<Sweep>, d: Debounce)
    requires e.Some? <==> e'.Some?
    requires e.Some? ==> exists at :: e'.value == e.value.(digestedAt := at)
    ensures Fits(e', log, k, maxAttempts) <==> Fits(e, log, k, maxAttempts)
    ensures Flat(e', log, k) <==> Flat(e, log, k)
    ensures Refines(e', hs, k, d) <==> Refines(e, hs, k, d)
  {
    hide Spell, SpellSince, OpenSince, Since, Total, LastSeen, Reds, RedFrom;
    if e.Some? {
      var at :| e'.value == e.value.(digestedAt := at);
    }
  }

  // ---------- the messages of whole runs ----------

  /** A key whose green spells all stay below both thresholds pages at most once and never recovers. */
  lemma FlappingPagesOnce(m: Monitor, k: Key)
    requires m.Valid() && Flaps(m.history, k, m.debounce)
    ensures Total(m.log, k, OpenSent) <= 1 && Total(m.log, k, RecoverySent) == 0 && Total(m.log, k, Opened) <= 1
  {
    assert KeptIn(m.incidents, m.log, m.history, k, m.debounce, m.maxAttempts);
  }

  /** At every point of the run, for every key: one open at most since its incident opened, one
      recovery at most and only after that open, and failed opens within the limit.  And an open
      left only for an entry then open, due, and of a class reported at once. */
  lemma MessagesAreBounded(m: Monitor, k: Key, n: nat)
    requires m.Valid() && n <= |m.log|
    ensures Since(m.log[..n], k, OpenSent) <= 1
    ensures Since(m.log[..n], k, RecoverySent) <= Since(m.log[..n], k, OpenSent)
    ensures Since(m.log[..n], k, OpenFailed) <= m.maxAttempts
    ensures forall i | 0 <= i < n && m.log[i].kind.OpenSent? ::
      m.log[i].entry.key == m.log[i].key && m.log[i].entry.resolvedAt.None?
      && m.log[i].entry.cls in m.immediate && DueToOpen(m.log[i].entry, m.log[i].now, m.debounce)
  {
    assert SegmentFine(m.log[..n], k, m.maxAttempts);
  }

  /** What was open before an item is what observing the earlier items left. */
  lemma {:induction false} ObservedBefore(e: Option<Entry>, items: seq<Item>, k: Key, now: int)
    ensures IsOpen(ObserveKey(e, items, k, now)) <==> (IsOpen(e) || Occurrences(items, k) > 0)
  {
    if Occurrences(items, k) > 0 {
      ObserveSeen(e, items, k, now);
    } else {
      ObserveUnseen(e, items, k, now);
    }
  }

  lemma UnseenKept(e: Option<Entry>, s: Sweep, k: Key)
    requires !Seen(s, k)
    ensures ObserveKey(e, s.observed, k, s.now) == e
  {
    ObserveUnseen(e, s.observed, k, s.now);
  }

  lemma KeyStepIs(e: Option<Entry>, s: Sweep, k: Key, d: Debounce)
    ensures KeyStep(e, s, k, d)
         == if s.sourcesOk && !Seen(s, k) then GreenKey(e, s.now, d) else ObserveKey(e, s.observed, k, s.now)
  {
    if !Seen(s, k) {
      UnseenKept(e, s, k);
    }
  }

  /** A flapping key's green spell is never long enough to resolve it. */
  lemma FlapperHolds(e: Option<Entry>, hs: seq<Sweep>, s: Sweep, k: Key, d: Debounce)
    requires Refines(e, hs, k, d) && Flaps(hs + [s], k, d) && IsOpen(e) && HealthyGreen(s, k)
    ensures IsOpen(GreenKey(e, s.now, d))
  {
    KeyStepIs(e, s, k, d);
    RefinesStep(e, hs, s, k, d);
    FlappingStaysOpen(hs, s, k, d);
  }

  lemma ClosedMeans(e: Option<Entry>, s: Sweep, k: Key, d: Debounce)
    ensures Seen(s, k) ==> IsOpen(KeyStep(e, s, k, d))
    ensures !Seen(s, k) && !s.sourcesOk ==> KeyStep(e, s, k, d) == e
  {
    if Seen(s, k) {
      ObserveSeen(e, s.observed, k, s.now);
    } else {
      UnseenKept(e, s, k);
    }
  }

  lemma LogFineNow(log: seq<Note>, k: Key, maxAttempts: nat)
    requires LogFine(log, maxAttempts)
    ensures SegmentFine(log, k, maxAttempts)
  {
    assert log[..|log|] == log;
  }

  /** Marking a message leaves every counter alone. */
  lemma RefinesMarked(m: map<Key, Entry>, e: Entry, marked: Entry, hs: seq<Sweep>, d: Debounce)
    requires AllRefine(m, hs, d) && Get(m, e.key) == Some(e)
    requires marked.resolvedAt == e.resolvedAt && marked.redStreak == e.redStreak
    requires marked.greenStreak == e.greenStreak && marked.greenSince == e.greenSince
    ensures AllRefine(m[e.key := marked], hs, d)
  {
    hide Spell, SpellSince, OpenSince, LastSeen, Reds, RedFrom;
    var m' := m[e.key := marked];
    forall k ensures Refines(Get(m', k), hs, k, d) {
      assert Refines(Get(m, k), hs, k, d);
    }
  }
}

/** Incident debounce: the counters `reconcile` keeps per key stand for facts about the whole sweep
    history. */
module Incidents {
  import opened Seqs

  type Key = string

  const STREAK: nat := 3

  datatype Debounce = Debounce(openAfter: int, recoverAfter: int)

  /** One observed incident; `carried` stands for the fields copied whole into the entry. */
  datatype Item = Item(key: Key, cls: string, runId: Option<string>, observedAt: Option<int>, carried: string)

  datatype Entry = Entry(key: Key, cls: string, carried: string, runId: Option<string>, runIds: seq<string>,
                         observations: nat, firstSeen: int, lastSeen: int, resolvedAt: Option<int>,
                         notifiedAt: Option<int>, sendAttempts: nat, recoveryNotifiedAt: Option<int>,
                         digestedAt: Option<int>, redStreak: nat, greenStreak: nat, greenSince: Option<int>)

  /** One sweep as the state sees it. */
  datatype Sweep = Sweep(now: int, observed: seq<Item>, sourcesOk: bool)

  function NewEntry(item: Item, now: int): Entry {
    Entry(item.key, item.cls, item.carried, item.runId, if item.runId.Some? then [item.runId.value] else [],
          1, if item.observedAt.Some? then item.observedAt.value else now, now, None,
          None, 0, None, None, 1, 0, None)
  }

  function UpdateEntry(e: Entry, item: Item, now: int): Entry {
    var newRun := item.runId.Some? && item.runId != e.runId;
    e.(observations := if newRun then e.observations + 1 else e.observations,
       runIds := if newRun then e.runIds + [item.runId.value] else e.runIds,
       cls := item.cls, carried := item.carried, runId := item.runId, lastSeen := now,
       redStreak := e.redStreak + 1, greenStreak := 0, greenSince := None)
  }

  /** The entry after one more healthy sweep that did not observe it. */
  function GreenEntry(e: Entry, now: int): Entry {
    e.(redStreak := 0, greenStreak := e.greenStreak + 1, greenSince := if e.greenSince.Some? then e.greenSince else Some(now))
  }

  /** Has the green spell lasted long enough to resolve? */
  predicate HeldGreen(e: Entry, now: int, d: Debounce) {
    e.greenStreak >= STREAK || now - (if e.greenSince.Some? then e.greenSince.value else now) >= d.recoverAfter
  }

  predicate DueToOpen(e: Entry, now: int, d: Debounce) {
    d.openAfter <= 0 || e.redStreak >= STREAK || now - e.firstSeen >= d.openAfter
  }

  predicate IsOpen(e: Option<Entry>) {
    e.Some? && e.value.resolvedAt.None?
  }

  // ---------- one key, one sweep ----------

  function ObserveItem(e: Option<Entry>, item: Item, now: int): Entry {
    if IsOpen(e) then UpdateEntry(e.value, item, now) else NewEntry(item, now)
  }

  function ObserveKey(e: Option<Entry>, items: seq<Item>, k: Key, now: int): Option<Entry> {
    if items == [] then e
    else
      var before := ObserveKey(e, Init(items), k, now);
      if Last(items).key == k then Some(ObserveItem(before, Last(items), now)) else before
  }

  function GreenKey(e: Option<Entry>, now: int, d: Debounce): Option<Entry> {
    if IsOpen(e) then
      var g := GreenEntry(e.value, now);
      Some(if HeldGreen(g, now, d) then g.(resolvedAt := Some(now)) else g)
    else e
  }

  function Occurrences(items: seq<Item>, k: Key): nat {
    if items == [] then 0 else Occurrences(Init(items), k) + if Last(items).key == k then 1 else 0
  }

  predicate Seen(s: Sweep, k: Key) {
    Occurrences(s.observed, k) > 0
  }

  /** A sweep whose sources are healthy and that does not observe the key. */
  predicate HealthyGreen(s: Sweep, k: Key) {
    s.sourcesOk && !Seen(s, k)
  }

  function KeyStep(e: Option<Entry>, s: Sweep, k: Key, d: Debounce): Option<Entry> {
    var after := ObserveKey(e, s.observed, k, s.now);
    if HealthyGreen(s, k) then GreenKey(after, s.now, d) else after
  }

  function KeyAfter(hs: seq<Sweep>, k: Key, d: Debounce): Option<Entry> {
    if hs == [] then None else KeyStep(KeyAfter(Init(hs), k, d), Last(hs), k, d)
  }

  // ---------- the history's own facts, with no counters ----------

  /** The last sweep that observed the key. */
  function LastSeen(hs: seq<Sweep>, k: Key): Option<nat> {
    if hs == [] then None else if Seen(Last(hs), k) then Some(|hs| - 1) else LastSeen(Init(hs), k)
  }

  /** How many sweeps from `from` on were healthy and green. */
  function Greens(hs: seq<Sweep>, k: Key, from: nat): nat {
    if |hs| <= from then 0 else Greens(Init(hs), k, from) + if HealthyGreen(Last(hs), k) then 1 else 0
  }

  /** When the first of them was. */
  function FirstGreen(hs: seq<Sweep>, k: Key, from: nat): Option<int> {
    if |hs| <= from then None
    else
      var before := FirstGreen(Init(hs), k, from);
      if before.Some? then before else if HealthyGreen(Last(hs), k) then Some(Last(hs).now) else None
  }

  /** The sweep after the last healthy green one from `from` on, or `from` itself. */
  function RedFrom(hs: seq<Sweep>, k: Key, from: nat): nat {
    if |hs| <= from then from else if HealthyGreen(Last(hs), k) then |hs| else RedFrom(Init(hs), k, from)
  }

  /** How often the key was observed from `from` on. */
  function Reds(hs: seq<Sweep>, k: Key, from: nat): nat {
    if |hs| <= from then 0 else Reds(Init(hs), k, from) + Occurrences(Last(hs).observed, k)
  }

  /** The green spell since the key was last observed. */
  function Spell(hs: seq<Sweep>, k: Key): nat {
    Greens(hs, k, if LastSeen(hs, k).Some? then LastSeen(hs, k).value + 1 else 0)
  }

  function SpellSince(hs: seq<Sweep>, k: Key): Option<int> {
    FirstGreen(hs, k, if LastSeen(hs, k).Some? then LastSeen(hs, k).value + 1 else 0)
  }

  /** The last sweep is healthy and green, and its spell has reached three sweeps or the window. */
  predicate SpellHolds(hs: seq<Sweep>, k: Key, d: Debounce)
    requires hs != []
  {
    HealthyGreen(Last(hs), k)
    && (Spell(hs, k) >= STREAK
        || (SpellSince(hs, k).Some? && Last(hs).now - SpellSince(hs, k).value >= d.recoverAfter))
  }

  /** The sweep that opened the incident now open, from the history alone. */
  function OpenSince(hs: seq<Sweep>, k: Key, d: Debounce): Option<nat> {
    if hs == [] then None
    else
      var before := OpenSince(Init(hs), k, d);
      if Seen(Last(hs), k) then (if before.Some? then before else Some(|hs| - 1))
      else if before.Some? && SpellHolds(hs, k, d) then None
      else before
  }

  // ---------- the refinement ----------

  /** The entry is open exactly when the history says so, and then its counters are the history's. */
  ghost predicate Refines(e: Option<Entry>, hs: seq<Sweep>, k: Key, d: Debounce) {
    && (IsOpen(e) <==> OpenSince(hs, k, d).Some?)
    && (IsOpen(e) ==>
          && LastSeen(hs, k).Some? && OpenSince(hs, k, d).value <= LastSeen(hs, k).value
          && e.value.greenStreak == Spell(hs, k)
          && e.value.greenSince == SpellSince(hs, k)
          && e.value.redStreak == Reds(hs, k, RedFrom(hs, k, OpenSince(hs, k, d).value)))
  }

  lemma {:induction false} ObserveUnseen(e: Option<Entry>, items: seq<Item>, k: Key, now: int)
    requires Occurrences(items, k) == 0
    ensures ObserveKey(e, items, k, now) == e
  {
    if items != [] {
      ObserveUnseen(e, Init(items), k, now);
    }
  }

  /** Observing a key leaves it open, with one more red per observation and no green spell. */
  lemma {:induction false} ObserveSeen(e: Option<Entry>, items: seq<Item>, k: Key, now: int)
    requires Occurrences(items, k) > 0
    ensures var after := ObserveKey(e, items, k, now);
            && IsOpen(after) && after.value.greenStreak == 0 && after.value.greenSince == None
            && after.value.redStreak == Occurrences(items, k) + if IsOpen(e) then e.value.redStreak else 0
  {
    if Occurrences(Init(items), k) > 0 {
      ObserveSeen(e, Init(items), k, now);
    } else {
      ObserveUnseen(e, Init(items), k, now);
    }
  }

  lemma {:induction false} LastSeenBounds(hs: seq<Sweep>, k: Key)
    ensures LastSeen(hs, k).Some? ==> LastSeen(hs, k).value < |hs| && Seen(hs[LastSeen(hs, k).value], k)
    ensures forall i | 0 <= i < |hs| && (LastSeen(hs, k).None? || LastSeen(hs, k).value < i) :: !Seen(hs[i], k)
  {
    if hs != [] {
      LastSeenBounds(Init(hs), k);
    }
  }

  lemma {:induction false} OpenSinceBounds(hs: seq<Sweep>, k: Key, d: Debounce)
    ensures OpenSince(hs, k, d).Some? ==> OpenSince(hs, k, d).value < |hs|
  {
    if hs != [] {
      OpenSinceBounds(Init(hs), k, d);
    }
  }

  lemma {:induction false} RedFromBounds(hs: seq<Sweep>, k: Key, from: nat)
    ensures RedFrom(hs, k, from) <= Max(|hs|, from)
  {
    if |hs| > from {
      RedFromBounds(Init(hs), k, from);
    }
  }

  /** A sweep that observes the key. */
  lemma RefinesSeen(e: Option<Entry>, hs: seq<Sweep>, s: Sweep, k: Key, d: Debounce)
    requires Refines(e, hs, k, d) && Seen(s, k)
    ensures Refines(KeyStep(e, s, k, d), hs + [s], k, d)
  {
    SnocParts(hs, s);
    ObserveSeen(e, s.observed, k, s.now);
    LastSeenBounds(hs, k);
    OpenSinceBounds(hs, k, d);
    if OpenSince(hs, k, d).Some? {
      RedFromBounds(hs, k, OpenSince(hs, k, d).value);
    } else {
      assert Reds(hs, k, |hs|) == 0;
    }
  }

  /** A degraded sweep that does not observe the key changes nothing. */
  lemma RefinesDegraded(e: Option<Entry>, hs: seq<Sweep>, s: Sweep, k: Key, d: Debounce)
    requires Refines(e, hs, k, d) && !Seen(s, k) && !s.sourcesOk
    ensures KeyStep(e, s, k, d) == e
    ensures Refines(e, hs + [s], k, d)
  {
    SnocParts(hs, s);
    ObserveUnseen(e, s.observed, k, s.now);
    LastSeenBounds(hs, k);
    OpenSinceBounds(hs, k, d);
    if OpenSince(hs, k, d).Some? {
      RedFromBounds(hs, k, OpenSince(hs, k, d).value);
    }
  }

  /** A healthy green sweep lengthens the spell, and resolves exactly when it holds. */
  lemma RefinesGreen(e: Option<Entry>, hs: seq<Sweep>, s: Sweep, k: Key, d: Debounce)
    requires Refines(e, hs, k, d) && HealthyGreen(s, k)
    ensures Refines(KeyStep(e, s, k, d), hs + [s], k, d)
  {
    SnocParts(hs, s);
    ObserveUnseen(e, s.observed, k, s.now);
    LastSeenBounds(hs, k);
    OpenSinceBounds(hs, k, d);
    assert LastSeen(hs + [s], k) == LastSeen(hs, k);
  }

  lemma RefinesStep(e: Option<Entry>, hs: seq<Sweep>, s: Sweep, k: Key, d: Debounce)
    requires Refines(e, hs, k, d)
    ensures Refines(KeyStep(e, s, k, d), hs + [s], k, d)
  {
    hide Refines, KeyStep;
    if Seen(s, k) {
      RefinesSeen(e, hs, s, k, d);
    } else if s.sourcesOk {
      RefinesGreen(e, hs, s, k, d);
    } else {
      RefinesDegraded(e, hs, s, k, d);
    }
  }

  /** After any sweep sequence the counters of an open entry are the history's own counts. */
  lemma {:induction false} CountersRefineHistory(hs: seq<Sweep>, k: Key, d: Debounce)
    ensures Refines(KeyAfter(hs, k, d), hs, k, d)
  {
    if hs != [] {
      CountersRefineHistory(Init(hs), k, d);
      assert hs == Init(hs) + [Last(hs)];
      RefinesStep(KeyAfter(Init(hs), k, d), Init(hs), Last(hs), k, d);
    }
  }

  /** An open incident resolves at a sweep exactly when that sweep is healthy and green and its spell
      reaches three sweeps or the recovery window: never on a degraded sweep. */
  lemma ResolvesExactlyWhenSpellHolds(hs: seq<Sweep>, s: Sweep, k: Key, d: Debounce)
    requires IsOpen(KeyAfter(hs, k, d))
    ensures !IsOpen(KeyAfter(hs + [s], k, d)) <==> SpellHolds(hs + [s], k, d)
    ensures SpellHolds(hs + [s], k, d) ==> s.sourcesOk && !Seen(s, k)
  {
    SnocParts(hs, s);
    CountersRefineHistory(hs, k, d);
    CountersRefineHistory(hs + [s], k, d);
  }

  /** The history's counts, spelled out: the spell is the number of healthy sweeps after the last
      observation, none of which observed the key. */
  lemma {:induction false} GreensCount(hs: seq<Sweep>, k: Key, from: nat)
    ensures Greens(hs, k, from) == |set i | from <= i < |hs| && HealthyGreen(hs[i], k)|
  {
    var all := set i | from <= i < |hs| && HealthyGreen(hs[i], k);
    if |hs| <= from {
      assert all == {};
    } else {
      GreensCount(Init(hs), k, from);
      var before := set i | from <= i < |Init(hs)| && HealthyGreen(Init(hs)[i], k);
      assert all == if HealthyGreen(Last(hs), k) then before + {|hs| - 1} else before;
    }
  }

  /** The sweeps from `from` on that observed the key. */
  function Sightings(hs: seq<Sweep>, k: Key, from: nat): set<nat> {
    set i: nat | from <= i < |hs| && Seen(hs[i], k)
  }

  /** Reds count observing sweeps exactly when none of those counted observes the key twice. */
  lemma {:induction false} RedsCountExactlyWhen(hs: seq<Sweep>, k: Key, from: nat)
    ensures Reds(hs, k, from) >= |Sightings(hs, k, from)|
    ensures Reds(hs, k, from) == |Sightings(hs, k, from)|
            <==> forall i | from <= i < |hs| :: Occurrences(hs[i].observed, k) <= 1
  {
    hide Occurrences;
    var all := Sightings(hs, k, from);
    if |hs| <= from {
      assert all == {};
    } else {
      var front := Init(hs);
      RedsCountExactlyWhen(front, k, from);
      var before := Sightings(front, k, from);
      assert all == if Seen(Last(hs), k) then before + {|hs| - 1} else before;
      OneMoreSweep(hs, k, from);
    }
  }

  lemma OneMoreSweep(hs: seq<Sweep>, k: Key, from: nat)
    requires from < |hs|
    ensures (forall i | from <= i < |hs| :: Occurrences(hs[i].observed, k) <= 1) <==>
            (forall i | from <= i < |Init(hs)| :: Occurrences(Init(hs)[i].observed, k) <= 1) && Occurrences(Last(hs).observed, k) <= 1
  {
    hide Occurrences;
    var front := Init(hs);
    assert forall i | 0 <= i < |front| :: front[i] == hs[i];
  }

  // ---------- what a sweep hands on ----------

  /** Of what was found, the first item of each key, in the order of first sight. */
  function FirstPerKey(found: seq<Item>): seq<Item> {
    if found == [] then []
    else
      var before := FirstPerKey(Init(found));
      if Occurrences(before, Last(found).key) > 0 then before else before + [Last(found)]
  }

  function FirstWith(items: seq<Item>, k: Key): Option<Item> {
    if items == [] then None
    else if FirstWith(Init(items), k).Some? then FirstWith(Init(items), k)
    else if Last(items).key == k then Some(Last(items)) else None
  }

  method KeepFirst(found: seq<Item>) returns (items: seq<Item>)
    ensures items == FirstPerKey(found)
  {
    var seen: set<Key> := {};
    items := [];
    for i := 0 to |found|
      invariant items == FirstPerKey(found[..i])
      invariant forall k :: k in seen <==> Occurrences(items, k) > 0
    {
      assert Init(found[..i + 1]) == found[..i];
      if found[i].key !in seen {
        SnocParts(items, found[i]);
        items, seen := items + [found[i]], seen + {found[i].key};
      }
    }
    assert found[..|found|] == found;
  }

  /** Each key found is handed on once, by its first item. */
  lemma {:induction false} HandedOnOnce(found: seq<Item>, k: Key)
    ensures Occurrences(FirstPerKey(found), k) == if Occurrences(found, k) > 0 then 1 else 0
    ensures FirstWith(FirstPerKey(found), k) == FirstWith(found, k)
    ensures FirstWith(found, k).Some? <==> Occurrences(found, k) > 0
  {
    if found != [] {
      var before, last := FirstPerKey(Init(found)), Last(found);
      HandedOnOnce(Init(found), k);
      HandedOnOnce(Init(found), last.key);
      SnocParts(before, last);
    }
  }

  /** Handing on leaves just those items alone that have no key twice. */
  lemma HandedOnExactlyWhenDistinct(items: seq<Item>)
    ensures FirstPerKey(items) == items <==> forall k :: Occurrences(items, k) <= 1
  {
    if forall k :: Occurrences(items, k) <= 1 {
      DistinctStay(items);
    } else {
      var k :| Occurrences(items, k) > 1;
      HandedOnOnce(items, k);
    }
  }

  lemma {:induction false} DistinctStay(items: seq<Item>)
    requires forall k :: Occurrences(items, k) <= 1
    ensures FirstPerKey(items) == items
  {
    if items != [] {
      assert forall k :: Occurrences(Init(items), k) <= Occurrences(items, k);
      assert Occurrences(items, Last(items).key) == Occurrences(Init(items), Last(items).key) + 1;
      DistinctStay(Init(items));
    }
  }

  /** A sweep before its items are handed on. */
  datatype Raw = Raw(now: int, found: seq<Item>, sourcesOk: bool)

  function Handed(rs: seq<Raw>): (hs: seq<Sweep>)
    ensures |hs| == |rs|
  {
    seq(|rs|, i requires 0 <= i < |rs| => Sweep(rs[i].now, FirstPerKey(rs[i].found), rs[i].sourcesOk))
  }

  /** The sweeps from `from` on that found the key. */
  function SweepsFinding(rs: seq<Raw>, k: Key, from: nat): set<nat> {
    set i: nat | from <= i < |rs| && Occurrences(rs[i].found, k) > 0
  }

  /** So after any sweeps the red streak of an open entry is the number of sweeps that found the key since
      the last healthy one that did not, or since the incident opened. */
  lemma RedStreakCountsSweeps(rs: seq<Raw>, k: Key, d: Debounce)
    requires IsOpen(KeyAfter(Handed(rs), k, d))
    ensures OpenSince(Handed(rs), k, d).Some?
    ensures var from := RedFrom(Handed(rs), k, OpenSince(Handed(rs), k, d).value);
            KeyAfter(Handed(rs), k, d).value.redStreak == |SweepsFinding(rs, k, from)|
  {
    hide Occurrences, FirstPerKey, OpenSince, RedFrom, KeyAfter;
    var hs := Handed(rs);
    CountersRefineHistory(hs, k, d);
    var from := RedFrom(hs, k, OpenSince(hs, k, d).value);
    forall i | 0 <= i < |rs| ensures Occurrences(hs[i].observed, k) == if Occurrences(rs[i].found, k) > 0 then 1 else 0 {
      HandedOnOnce(rs[i].found, k);
    }
    RedsCountExactlyWhen(hs, k, from);
    assert forall i | from <= i < |hs| :: Occurrences(hs[i].observed, k) <= 1;
    assert forall i | from <= i < |hs| :: Seen(hs[i], k) <==> Occurrences(rs[i].found, k) > 0;
    assert Sightings(hs, k, from) == SweepsFinding(rs, k, from);
  }

  // ---------- when an incident is due ----------

  /** The first item of a sweep that observes the key says since when, or the sweep does. */
  function Stamp(items: seq<Item>, k: Key, now: int): int {
    if items == [] then now
    else if Occurrences(Init(items), k) > 0 then Stamp(Init(items), k, now)
    else if Last(items).key == k && Last(items).observedAt.Some? then Last(items).observedAt.value
    else now
  }

  lemma {:induction false} ObserveStamps(e: Option<Entry>, items: seq<Item>, k: Key, now: int)
    requires Occurrences(items, k) > 0
    ensures var after := ObserveKey(e, items, k, now);
            after.Some? && after.value.firstSeen == if IsOpen(e) then e.value.firstSeen else Stamp(items, k, now)
  {
    if Occurrences(Init(items), k) > 0 {
      ObserveStamps(e, Init(items), k, now);
      ObserveSeen(e, Init(items), k, now);
    } else {
      ObserveUnseen(e, Init(items), k, now);
    }
  }

  /** An open entry dates from the sweep that opened it. */
  lemma {:induction false} OpenEntryDates(hs: seq<Sweep>, k: Key, d: Debounce)
    requires IsOpen(KeyAfter(hs, k, d))
    ensures OpenSince(hs, k, d).Some? && OpenSince(hs, k, d).value < |hs|
    ensures var opening := hs[OpenSince(hs, k, d).value];
            KeyAfter(hs, k, d).value.firstSeen == Stamp(opening.observed, k, opening.now)
  {
    CountersRefineHistory(hs, k, d);
    OpenSinceBounds(hs, k, d);
    if hs != [] {
      var before := KeyAfter(Init(hs), k, d);
      CountersRefineHistory(Init(hs), k, d);
      OpenSinceBounds(Init(hs), k, d);
      if Seen(Last(hs), k) {
        ObserveStamps(before, Last(hs).observed, k, Last(hs).now);
      } else {
        ObserveUnseen(before, Last(hs).observed, k, Last(hs).now);
      }
      if IsOpen(before) {
        OpenEntryDates(Init(hs), k, d);
      }
    }
  }

  /** An open incident is due exactly when opening is immediate, or it was observed three times since the
      last healthy green sweep, or it has stood open for the window. */
  lemma DueExactlyWhen(hs: seq<Sweep>, k: Key, d: Debounce, now: int)
    requires IsOpen(KeyAfter(hs, k, d))
    ensures OpenSince(hs, k, d).Some? && OpenSince(hs, k, d).value < |hs|
    ensures var from := OpenSince(hs, k, d).value;
            DueToOpen(KeyAfter(hs, k, d).value, now, d) <==>
              (d.openAfter <= 0 || Reds(hs, k, RedFrom(hs, k, from)) >= STREAK
               || now - Stamp(hs[from].observed, k, hs[from].now) >= d.openAfter)
  {
    CountersRefineHistory(hs, k, d);
    OpenEntryDates(hs, k, d);
  }

  // ---------- flapping ----------

  /** From the key's first sighting on, no green spell ever reaches a threshold. */
  ghost predicate Flaps(hs: seq<Sweep>, k: Key, d: Debounce) {
    forall n | 0 < n <= |hs| && LastSeen(hs[..n], k).Some? :: !SpellHolds(hs[..n], k, d)
  }

  /** An incident stands open only for a key that was observed. */
  lemma {:induction false} OpenWasSeen(hs: seq<Sweep>, k: Key, d: Debounce)
    ensures OpenSince(hs, k, d).Some? ==> LastSeen(hs, k).Some?
  {
    if hs != [] {
      OpenWasSeen(Init(hs), k, d);
    }
  }

  /** A flapping key, once open, stays open. */
  lemma FlappingStaysOpen(hs: seq<Sweep>, s: Sweep, k: Key, d: Debounce)
    requires Flaps(hs + [s], k, d)
    ensures Flaps(hs, k, d)
    ensures OpenSince(hs, k, d).Some? ==> OpenSince(hs + [s], k, d) == OpenSince(hs, k, d)
  {
    SnocParts(hs, s);
    OpenWasSeen(hs, k, d);
    assert (hs + [s])[..|hs| + 1] == hs + [s];
    forall n | 0 < n <= |hs| && LastSeen(hs[..n], k).Some? ensures !SpellHolds(hs[..n], k, d) {
      assert (hs + [s])[..n] == hs[..n];
    }
  }

  /** However long a key went unobserved, that alone is no spell of it. */
  lemma UnseenFlaps(hs: seq<Sweep>, k: Key, d: Debounce)
    requires LastSeen(hs, k).None?
    ensures Flaps(hs, k, d)
  {
    LastSeenBounds(hs, k);
    forall n | 0 < n <= |hs| ensures LastSeen(hs[..n], k).None? {
      LastSeenBounds(hs[..n], k);
    }
  }

  /** A key flaps exactly when, from its first sighting on, its incident never resolves. */
  lemma {:induction false} FlapsExactlyWhenNeverResolved(hs: seq<Sweep>, k: Key, d: Debounce)
    ensures Flaps(hs, k, d) <==>
      (forall n | 0 < n <= |hs| && LastSeen(hs[..n], k).Some? :: IsOpen(KeyAfter(hs[..n], k, d)))
  {
    if hs != [] {
      var before, s := Init(hs), Last(hs);
      assert hs == before + [s];
      FlapsExactlyWhenNeverResolved(before, k, d);
      forall n | 0 < n < |hs| ensures hs[..n] == before[..n] { }
      assert hs[..|hs|] == hs && (before != [] ==> before[..|before|] == before);
      CountersRefineHistory(hs, k, d);
      CountersRefineHistory(before, k, d);
      OpenWasSeen(before, k, d);
      assert Flaps(hs, k, d) <==> (Flaps(before, k, d) && (LastSeen(hs, k).Some? ==> !SpellHolds(hs, k, d))) by {
        SplitFlaps(before, s, k, d);
      }
    }
  }

  lemma SplitFlaps(hs: seq<Sweep>, s: Sweep, k: Key, d: Debounce)
    ensures Flaps(hs + [s], k, d) <==>
      (Flaps(hs, k, d) && (LastSeen(hs + [s], k).Some? ==> !SpellHolds(hs + [s], k, d)))
  {
    var all := hs + [s];
    assert all[..|all|] == all;
    forall n | 0 < n <= |hs| ensures all[..n] == hs[..n] { }
    if Flaps(all, k, d) {
      FlappingStaysOpen(hs, s, k, d);
    }
  }
}

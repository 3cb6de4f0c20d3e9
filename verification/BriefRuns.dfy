/** Brief runs are paid for by human input: a card never has more live brief runs than inputs. */
module BriefRuns {
  import opened Seqs
  import opened Ledger
  import opened Life
  import opened ResearchRuns

  predicate IsLiveBriefRun(r: CardRun) { r.purpose.BriefRun? && !r.void }

  /** Some input falls after `a` and no later than `b`. */
  ghost predicate InputBetween(inputs: seq<int>, a: int, b: int) {
    exists i | 0 <= i < |inputs| :: a < inputs[i] <= b
  }

  /** Between any two live brief runs a human spoke. */
  ghost predicate Paid(runs: seq<CardRun>, inputs: seq<int>) {
    forall i, j | 0 <= i < j < |runs| && IsLiveBriefRun(runs[i]) && IsLiveBriefRun(runs[j]) ::
      InputBetween(inputs, runs[i].ts, runs[j].ts)
  }

  // ---------- counting ----------

  lemma InputBetweenWithout(inputs: seq<int>, q: nat, a: int, b: int)
    requires q < |inputs| && InputBetween(inputs, a, b) && b < inputs[q]
    ensures InputBetween(inputs[..q] + inputs[q + 1..], a, b)
  {
    var i :| 0 <= i < |inputs| && a < inputs[i] <= b;
    var rest := inputs[..q] + inputs[q + 1..];
    if i < q {
      assert rest[i] == inputs[i];
    } else {
      assert rest[i - 1] == inputs[i];
    }
  }

  /** Disjoint intervals, one input in each: there are at least as many inputs as instants. */
  lemma {:induction false} PaidCount(times: seq<int>, inputs: seq<int>, born: int)
    requires times != [] ==> InputBetween(inputs, born, times[0])
    requires forall i, j | 0 <= i < j < |times| :: InputBetween(inputs, times[i], times[j])
    ensures |times| <= |inputs|
  {
    if |times| >= 2 {
      var n := |times| - 1;
      assert InputBetween(inputs, times[n - 1], times[n]);
      var q :| 0 <= q < |inputs| && times[n - 1] < inputs[q] <= times[n];
      var rest := inputs[..q] + inputs[q + 1..];
      forall i, j | 0 <= i < j < n ensures InputBetween(rest, times[i], times[j]) {
        if j < n - 1 {
          assert InputBetween(inputs, times[j], times[n - 1]);
        }
        InputBetweenWithout(inputs, q, times[i], times[j]);
      }
      if n > 1 {
        assert InputBetween(inputs, times[0], times[n - 1]);
      }
      InputBetweenWithout(inputs, q, born, times[0]);
      assert times[..n][0] == times[0];
      PaidCount(times[..n], rest, born);
    }
  }

  lemma {:induction false} BriefRunTimesAreKept(runs: seq<CardRun>)
    ensures |BriefRunTimes(runs)| == |Filter(runs, IsLiveBriefRun)|
    ensures forall i | 0 <= i < |BriefRunTimes(runs)| :: BriefRunTimes(runs)[i] == Filter(runs, IsLiveBriefRun)[i].ts
  {
    if runs != [] {
      BriefRunTimesAreKept(Init(runs));
    }
  }

  lemma PaidBounds(runs: seq<CardRun>, inputs: seq<int>, born: int)
    requires Paid(runs, inputs)
    requires forall i | 0 <= i < |runs| && IsLiveBriefRun(runs[i]) :: InputBetween(inputs, born, runs[i].ts)
    ensures |Filter(runs, IsLiveBriefRun)| <= |inputs|
  {
    var kept, times := Filter(runs, IsLiveBriefRun), BriefRunTimes(runs);
    BriefRunTimesAreKept(runs);
    FilterPairs(runs, IsLiveBriefRun, (a: CardRun, b: CardRun) => InputBetween(inputs, a.ts, b.ts));
    forall i, j | 0 <= i < j < |times| ensures InputBetween(inputs, times[i], times[j]) {
      assert InputBetween(inputs, kept[i].ts, kept[j].ts);
    }
    if times != [] {
      FilterMembers(runs, IsLiveBriefRun);
      var k :| 0 <= k < |runs| && runs[k] == kept[0];
    }
    PaidCount(times, inputs, born);
  }

  // ---------- inputs only grow ----------

  /** The card's inputs in ledger order. */
  function InputsOf(c: Card): seq<int> {
    EventInputs(c.events) + Times(Filter(c.decisions, OfKind(BriefReturned)))
  }

  lemma InputsAppendEvent(c: Card, e: Event)
    ensures forall a, b | InputBetween(InputsOf(c), a, b) :: InputBetween(InputsOf(AppendEvent(c, e)), a, b)
  {
    SnocParts(c.events, e);
    var was, now := InputsOf(c), InputsOf(AppendEvent(c, e));
    var n, shift := |EventInputs(c.events)|, |EventInputs(c.events + [e])| - |EventInputs(c.events)|;
    forall a, b | InputBetween(was, a, b) ensures InputBetween(now, a, b) {
      var i :| 0 <= i < |was| && a < was[i] <= b;
      if i < n {
        assert now[i] == was[i];
      } else {
        assert now[i + shift] == was[i];
      }
    }
  }

  lemma InputsAppendDecision(c: Card, d: Decision)
    ensures forall a, b | InputBetween(InputsOf(c), a, b) :: InputBetween(InputsOf(AppendDecision(c, d)), a, b)
  {
    FilterSnoc(c.decisions, d, OfKind(BriefReturned));
    var was, now := InputsOf(c), InputsOf(AppendDecision(c, d));
    forall a, b | InputBetween(was, a, b) ensures InputBetween(now, a, b) {
      var i :| 0 <= i < |was| && a < was[i] <= b;
      assert now[i] == was[i];
    }
  }

  lemma {:induction false} EventInputsNotFuture(events: seq<Event>, now: int)
    requires forall i | 0 <= i < |events| :: events[i].ts <= now
    ensures forall i | 0 <= i < |EventInputs(events)| :: EventInputs(events)[i] <= now
  {
    if events != [] {
      EventInputsNotFuture(Init(events), now);
    }
  }

  lemma InputsNotFuture(c: Card, now: int)
    requires InOrder(c, now)
    ensures forall i | 0 <= i < |InputsOf(c)| :: InputsOf(c)[i] <= now
  {
    EventInputsNotFuture(c.events, now);
    FilterMembers(c.decisions, OfKind(BriefReturned));
    var kept := Filter(c.decisions, OfKind(BriefReturned));
    forall i | 0 <= i < |kept| ensures kept[i].ts <= now {
      var k :| 0 <= k < |c.decisions| && c.decisions[k] == kept[i];
    }
  }

  lemma {:induction false} MaxOfIsMax(xs: seq<int>)
    ensures MaxOf(xs).None? <==> xs == []
    ensures MaxOf(xs).Some? ==> MaxOf(xs).value in xs
    ensures forall i | 0 <= i < |xs| :: MaxOf(xs).Some? && xs[i] <= MaxOf(xs).value
  {
    if xs != [] {
      MaxOfIsMax(Init(xs));
      assert xs == Init(xs) + [Last(xs)];
    }
  }

  // ---------- the guard of a brief pick ----------

  lemma {:induction false} LiveRunIsTimed(runs: seq<CardRun>, i: nat)
    requires i < |runs| && IsLiveBriefRun(runs[i])
    ensures runs[i].ts in BriefRunTimes(runs)
  {
    if i < |runs| - 1 {
      LiveRunIsTimed(Init(runs), i);
    }
  }

  lemma BriefPickIsPaid(c: Card, act: Act, at: Moment, i: nat)
    requires act.PickCard? && act.purpose.BriefRun? && Allowed(c, act, at) && InOrder(c, at.clock.now)
    requires i < |RunsIn(c.events, c.receipts)| && IsLiveBriefRun(RunsIn(c.events, c.receipts)[i])
    ensures InputBetween(InputsOf(c), RunsIn(c.events, c.receipts)[i].ts, at.clock.now)
  {
    var runs := RunsIn(c.events, c.receipts);
    BriefPickMeans(c, act, at);
    LiveRunIsTimed(runs, i);
    var answered := BriefRunTimes(runs) + RunBriefTimes(c.events);
    MaxOfIsMax(answered);
    assert runs[i].ts in answered;
    MaxOfIsMax(InputsOf(c));
    InputsNotFuture(c, at.clock.now);
    var k :| 0 <= k < |InputsOf(c)| && InputsOf(c)[k] == MaxOf(InputsOf(c)).value;
  }

  lemma BriefPickMeans(c: Card, act: Act, at: Moment)
    requires act.PickCard? && act.purpose.BriefRun? && Allowed(c, act, at) && InOrder(c, at.clock.now)
    ensures var latest := MaxOf(InputsOf(c));
            var answered := MaxOf(BriefRunTimes(RunsIn(c.events, c.receipts)) + RunBriefTimes(c.events));
            answered.None? || (latest.Some? && latest.value > answered.value)
  {
    PickMeans(c, act, at);
    OrderedIdentity(c.events, EventTs);
    BriefWanted(c, at);
  }

  lemma BriefWanted(c: Card, at: Moment)
    requires Fresh(c, at).wants.wants == Some(BriefRun)
    ensures var latest := MaxOf(HumanInputs(c.events, c.decisions));
            var answered := MaxOf(BriefRunTimes(Runs(c.events, c.receipts)) + RunBriefTimes(c.events));
            answered.None? || (latest.Some? && latest.value > answered.value)
  {
  }

  // ---------- whole runs ----------

  /** The creation is an input no later than any run. */
  ghost predicate CreatedFirst(c: Card, start: int) {
    && InputBetween(InputsOf(c), start - 1, start)
    && forall i | 0 <= i < |RunsIn(c.events, c.receipts)| :: start <= RunsIn(c.events, c.receipts)[i].ts
  }

  lemma InputsGrow(c: Card, s: Step)
    ensures forall a, b | InputBetween(InputsOf(c), a, b) :: InputBetween(InputsOf(Perform(c, s)), a, b)
  {
    if Perform(c, s) != c {
      if s.act.Decide? {
        InputsAppendDecision(c, DecisionFrom(c, s.act, s.at));
      } else if !s.act.Settle? {
        InputsAppendEvent(c, EventOf(c, s.act, s.at));
      }
    }
  }

  lemma PaidSettles(events: seq<Event>, before: map<RunId, Receipt>, after: map<RunId, Receipt>, inputs: seq<int>)
    requires Paid(RunsIn(events, before), inputs) && Settles(before, after)
    ensures Paid(RunsIn(events, after), inputs)
  {
    RunsSettle(events, before, after);
    var runs, runs' := RunsIn(events, before), RunsIn(events, after);
    forall i, j | 0 <= i < j < |runs'| && IsLiveBriefRun(runs'[i]) && IsLiveBriefRun(runs'[j])
      ensures InputBetween(inputs, runs'[i].ts, runs'[j].ts)
    {
      assert SettledRun(runs[i], runs'[i]) && SettledRun(runs[j], runs'[j]);
      assert IsLiveBriefRun(runs[i]) && IsLiveBriefRun(runs[j]);
    }
  }

  lemma PaidAppends(runs: seq<CardRun>, r: CardRun, inputs: seq<int>)
    requires Paid(runs, inputs)
    requires IsLiveBriefRun(r) ==>
      forall i | 0 <= i < |runs| && IsLiveBriefRun(runs[i]) :: InputBetween(inputs, runs[i].ts, r.ts)
    ensures Paid(runs + [r], inputs)
  {
  }

  lemma PaidKept(c: Card, s: Step)
    requires Paid(RunsIn(c.events, c.receipts), InputsOf(c)) && InOrder(c, s.at.clock.now)
    ensures Paid(RunsIn(Perform(c, s).events, Perform(c, s).receipts), InputsOf(c))
  {
    hide Paid, DeriveMine;
    var runs := RunsIn(c.events, c.receipts);
    if Perform(c, s) != c {
      if s.act.Settle? {
        PaidSettles(c.events, c.receipts, s.act.receipts, InputsOf(c));
      } else if !s.act.Decide? {
        var e := EventOf(c, s.act, s.at);
        RunsAppend(c.events, e, c.receipts);
        if IsPick(e) {
          if e.purpose.BriefRun? {
            forall i | 0 <= i < |runs| && IsLiveBriefRun(runs[i]) ensures InputBetween(InputsOf(c), runs[i].ts, e.ts) {
              BriefPickIsPaid(c, s.act, s.at, i);
            }
          }
          PaidAppends(runs, RunOf(e, c.receipts), InputsOf(c));
        }
      }
    }
  }

  lemma PaidMore(runs: seq<CardRun>, fewer: seq<int>, more: seq<int>)
    requires Paid(runs, fewer)
    requires forall a, b | InputBetween(fewer, a, b) :: InputBetween(more, a, b)
    ensures Paid(runs, more)
  {
  }

  lemma CreatedFirstKept(c: Card, s: Step, start: int)
    requires CreatedFirst(c, start) && start <= s.at.clock.now
    ensures CreatedFirst(Perform(c, s), start)
  {
    hide DeriveMine;
    InputsGrow(c, s);
    if Perform(c, s) != c {
      if s.act.Settle? {
        RunsSettle(c.events, c.receipts, s.act.receipts);
        var runs, runs' := RunsIn(c.events, c.receipts), RunsIn(c.events, s.act.receipts);
        forall i | 0 <= i < |runs'| ensures start <= runs'[i].ts {
          assert SettledRun(runs[i], runs'[i]);
        }
      } else if !s.act.Decide? {
        RunsAppend(c.events, EventOf(c, s.act, s.at), c.receipts);
      }
    }
  }

  lemma {:induction false} AlwaysPaid(c: Card, start: int, steps: seq<Step>)
    requires Born(c, start) && NeverBack(start, steps)
    ensures var d := Exec(c, steps);
            Paid(RunsIn(d.events, d.receipts), InputsOf(d)) && CreatedFirst(d, start)
  {
    hide Perform;
    if steps == [] {
      BornHasNoRuns(c, start);
      assert c.events == [c.events[0]] + [c.events[1]];
      assert Init(c.events) == [c.events[0]] && Init([c.events[0]]) == [];
      assert EventInputs([c.events[0]]) == EventInputs([]) + [start];
      assert EventInputs(c.events)[0] == start;
      assert InputsOf(c)[0] == start;
    } else {
      var d, s := Exec(c, Init(steps)), Last(steps);
      AlwaysPaid(c, start, Init(steps));
      BornInOrder(c, start);
      ReachableInOrder(c, start, Init(steps));
      PaidKept(d, s);
      InputsGrow(d, s);
      PaidMore(RunsIn(Perform(d, s).events, Perform(d, s).receipts), InputsOf(d), InputsOf(Perform(d, s)));
      CreatedFirstKept(d, s, start);
    }
  }

  function NotBefore(start: int): int -> bool {
    (t: int) => t >= start
  }

  lemma SinceBetween(inputs: seq<int>, start: int, a: int, b: int)
    requires InputBetween(inputs, a, b) && start - 1 <= a
    ensures InputBetween(Filter(inputs, NotBefore(start)), a, b)
  {
    var since := Filter(inputs, NotBefore(start));
    FilterMembers(inputs, NotBefore(start));
    var i :| 0 <= i < |inputs| && a < inputs[i] <= b;
    assert NotBefore(start)(inputs[i]) && inputs[i] in since;
    var k :| 0 <= k < |since| && since[k] == inputs[i];
  }

  /** The creation stays the first event. */
  lemma {:induction false} FirstEventStays(c: Card, steps: seq<Step>)
    requires c.events != []
    ensures Exec(c, steps).events != [] && Exec(c, steps).events[0] == c.events[0]
  {
    hide Allowed;
    if steps != [] {
      FirstEventStays(c, Init(steps));
    }
  }

  /** In every reachable history a card's live brief runs number at most its human inputs since it was
      created: a return of an earlier card's text pays for none. */
  lemma BriefRunsPaidByInputs(c: Card, start: int, steps: seq<Step>)
    requires Born(c, start) && NeverBack(start, steps)
    ensures var d := Exec(c, steps);
      && d.events != [] && d.events[0].ts == start
      && |Filter(Runs(d.events, d.receipts), IsLiveBriefRun)|
         <= |Filter(HumanInputs(d.events, d.decisions), NotBefore(d.events[0].ts))|
  {
    hide Perform, Paid;
    var d := Exec(c, steps);
    AlwaysPaid(c, start, steps);
    BornInOrder(c, start);
    ReachableInOrder(c, start, steps);
    FirstEventStays(c, steps);
    var runs, since := RunsIn(d.events, d.receipts), Filter(InputsOf(d), NotBefore(start));
    forall i | 0 <= i < |runs| && IsLiveBriefRun(runs[i]) ensures InputBetween(since, start - 1, runs[i].ts) {
      SinceBetween(InputsOf(d), start, start - 1, start);
      var k :| 0 <= k < |since| && start - 1 < since[k] <= start;
    }
    PaidSince(runs, InputsOf(d), start);
    PaidBounds(runs, since, start - 1);
  }

  lemma PaidSince(runs: seq<CardRun>, inputs: seq<int>, start: int)
    requires Paid(runs, inputs) && forall i | 0 <= i < |runs| :: start <= runs[i].ts
    ensures Paid(runs, Filter(inputs, NotBefore(start)))
  {
    forall i, j | 0 <= i < j < |runs| && IsLiveBriefRun(runs[i]) && IsLiveBriefRun(runs[j])
      ensures InputBetween(Filter(inputs, NotBefore(start)), runs[i].ts, runs[j].ts)
    {
      SinceBetween(inputs, start, runs[i].ts, runs[j].ts);
    }
  }

  /** The pairing behind the count: between any two live brief runs there is an input strictly
      after the first and no later than the second. */
  lemma EachBriefRunFollowsNewInput(c: Card, start: int, steps: seq<Step>, i: nat, j: nat)
    requires Born(c, start) && NeverBack(start, steps)
    requires i < j < |Runs(Exec(c, steps).events, Exec(c, steps).receipts)|
    requires IsLiveBriefRun(Runs(Exec(c, steps).events, Exec(c, steps).receipts)[i])
    requires IsLiveBriefRun(Runs(Exec(c, steps).events, Exec(c, steps).receipts)[j])
    ensures var d := Exec(c, steps);
            InputBetween(HumanInputs(d.events, d.decisions),
                         Runs(d.events, d.receipts)[i].ts, Runs(d.events, d.receipts)[j].ts)
  {
    AlwaysPaid(c, start, steps);
    BornInOrder(c, start);
    ReachableInOrder(c, start, steps);
  }
}

/** Board order: priority, then deadline (none last), then id. */
module Order {
  import opened Seqs
  import opened Ledger

  /** 9999-12-31 as a day number: where a card without a deadline sorts. */
  const FAR_DAY: int := 2932896

  datatype Key = Key(rank: nat, deadline: int, id: Id)

  function KeyOf(v: View): Key {
    Key(match v.fields.priority case High => 0 case Normal => 1 case Low => 2,
        if v.fields.deadline.Some? then v.fields.deadline.value else FAR_DAY,
        v.id)
  }

  /** Code-point order on strings. */
  predicate Below(a: string, b: string) {
    b != [] && (a == [] || a[0] < b[0] || (a[0] == b[0] && Below(a[1..], b[1..])))
  }

  predicate Before(a: Key, b: Key) {
    || a.rank < b.rank
    || (a.rank == b.rank && a.deadline < b.deadline)
    || (a.rank == b.rank && a.deadline == b.deadline && Below(a.id, b.id))
  }

  lemma {:induction false} BelowTotal(a: string, b: string)
    ensures a == b || Below(a, b) || Below(b, a)
    ensures !(Below(a, b) && Below(b, a))
    ensures a == b ==> !Below(a, b)
  {
    if a != [] && b != [] && a[0] == b[0] {
      BelowTotal(a[1..], b[1..]);
      assert a == [a[0]] + a[1..] && b == [b[0]] + b[1..];
    }
  }

  lemma {:induction false} BelowTransitive(a: string, b: string, c: string)
    requires Below(a, b) && Below(b, c)
    ensures Below(a, c)
  {
    if a != [] && a[0] == b[0] && b[0] == c[0] {
      BelowTransitive(a[1..], b[1..], c[1..]);
    }
  }

  /** `Before` is a strict total order on keys. */
  lemma BeforeTotal(a: Key, b: Key)
    ensures a == b || Before(a, b) || Before(b, a)
    ensures !(Before(a, b) && Before(b, a))
  {
    BelowTotal(a.id, b.id);
  }

  lemma BeforeTransitive(a: Key, b: Key, c: Key)
    requires Before(a, b) && Before(b, c)
    ensures Before(a, c)
  {
    if a.id != b.id && Below(a.id, b.id) && Below(b.id, c.id) {
      BelowTransitive(a.id, b.id, c.id);
    }
  }

  /** Sorted in board order. */
  ghost predicate Arranged(vs: seq<View>) {
    forall i, j | 0 <= i < j < |vs| :: !Before(KeyOf(vs[j]), KeyOf(vs[i]))
  }

  function Place(vs: seq<View>, v: View): (r: seq<View>)
    ensures multiset(r) == multiset(vs) + multiset{v}
  {
    if vs == [] then [v]
    else
      assert vs == Init(vs) + [Last(vs)];
      if !Before(KeyOf(v), KeyOf(Last(vs))) then vs + [v] else Place(Init(vs), v) + [Last(vs)]
  }

  function Arrange(vs: seq<View>): (r: seq<View>)
    ensures multiset(r) == multiset(vs)
  {
    if vs == [] then []
    else
      assert vs == Init(vs) + [Last(vs)];
      Place(Arrange(Init(vs)), Last(vs))
  }

  lemma {:induction false} PlaceArranged(vs: seq<View>, v: View)
    requires Arranged(vs)
    ensures Arranged(Place(vs, v))
  {
    if vs == [] {
    } else if !Before(KeyOf(v), KeyOf(Last(vs))) {
      forall i | 0 <= i < |vs| ensures !Before(KeyOf(v), KeyOf(vs[i])) {
        assert !Before(KeyOf(Last(vs)), KeyOf(vs[i])) || i == |vs| - 1;
        if Before(KeyOf(v), KeyOf(vs[i])) {
          BeforeTotal(KeyOf(vs[i]), KeyOf(Last(vs)));
          if KeyOf(vs[i]) != KeyOf(Last(vs)) {
            BeforeTransitive(KeyOf(v), KeyOf(vs[i]), KeyOf(Last(vs)));
          }
        }
      }
    } else {
      PlaceArranged(Init(vs), v);
      var r := Place(Init(vs), v);
      forall i | 0 <= i < |r| ensures !Before(KeyOf(Last(vs)), KeyOf(r[i])) {
        assert r[i] in multiset(r);
        if r[i] == v {
          BeforeTotal(KeyOf(v), KeyOf(Last(vs)));
        } else {
          assert r[i] in Init(vs);
        }
      }
    }
  }

  lemma {:induction false} ArrangeArranged(vs: seq<View>)
    ensures Arranged(Arrange(vs))
  {
    if vs != [] {
      ArrangeArranged(Init(vs));
      PlaceArranged(Arrange(Init(vs)), Last(vs));
    }
  }

  lemma ArrangeMembers(vs: seq<View>, v: View)
    ensures v in Arrange(vs) <==> v in vs
  {
    assert v in multiset(Arrange(vs)) <==> v in multiset(vs);
  }
}

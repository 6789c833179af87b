/** `NodeRelation::update_id`: old node ids become new ones by going through the id map in whatever
    order the map lists its entries. */
module Renaming {
  import opened Basics
  import opened WorkflowModel

  type Order = seq<(Uuid, Uuid)>

  /** A listing of a map: every entry once. */
  ghost predicate Lists(order: Order, m: map<Uuid, Uuid>) {
    && (forall i, j :: 0 <= i < j < |order| ==> order[i].0 != order[j].0)
    && (forall i :: 0 <= i < |order| ==> order[i].0 in m && m[order[i].0] == order[i].1)
    && (forall x :: x in m ==> exists i :: 0 <= i < |order| && order[i].0 == x)
  }

  /** One id, rewritten entry by entry. */
  function Rewrite(x: Uuid, order: Order): Uuid
    decreases |order|
  {
    if order == [] then x else Rewrite(if order[0].0 == x then order[0].1 else x, order[1..])
  }

  /** The source's loop over the map. */
  method UpdateId(r: NodeRelation, order: Order) returns (updated: NodeRelation)
    ensures updated == NodeRelation(Rewrite(r.fromId, order), Rewrite(r.toId, order), r.slots)
  {
    updated := r;
    assert order[0..] == order;
    for i := 0 to |order|
      invariant updated.slots == r.slots
      invariant Rewrite(updated.fromId, order[i..]) == Rewrite(r.fromId, order)
      invariant Rewrite(updated.toId, order[i..]) == Rewrite(r.toId, order)
    {
      assert order[i..][1..] == order[i + 1..] && order[i..][0] == order[i];
      if order[i].0 == updated.fromId {
        updated := updated.(fromId := order[i].1);
      }
      if order[i].0 == updated.toId {
        updated := updated.(toId := order[i].1);
      }
    }
  }

  /** Simultaneous substitution. */
  function Subst(m: map<Uuid, Uuid>, x: Uuid): Uuid {
    if x in m then m[x] else x
  }

  /** The new id of `x` is not itself renamed to something else. */
  predicate Settled(m: map<Uuid, Uuid>, x: Uuid) {
    x in m && m[x] != x && m[x] in m ==> m[m[x]] == m[x]
  }

  lemma {:induction false} RewriteUntouched(x: Uuid, order: Order)
    requires forall i :: 0 <= i < |order| && order[i].0 == x ==> order[i].1 == x
    ensures Rewrite(x, order) == x
  {
    if order != [] { RewriteUntouched(x, order[1..]); }
  }

  lemma {:induction false} RewriteSettled(m: map<Uuid, Uuid>, x: Uuid, order: Order)
    requires x in m && Settled(m, x)
    requires forall i :: 0 <= i < |order| ==> order[i].0 in m && m[order[i].0] == order[i].1
    requires exists i :: 0 <= i < |order| && order[i].0 == x
    ensures Rewrite(x, order) == m[x]
  {
    if order[0].0 == x {
      RewriteUntouched(m[x], order[1..]);
    } else {
      RewriteSettled(m, x, order[1..]);
    }
  }

  lemma {:induction false} RewriteConcat(x: Uuid, a: Order, b: Order)
    ensures Rewrite(x, a + b) == Rewrite(Rewrite(x, a), b)
    decreases |a|
  {
    if a == [] {
      assert a + b == b;
    } else {
      assert (a + b)[1..] == a[1..] + b;
      RewriteConcat(if a[0].0 == x then a[0].1 else x, a[1..], b);
    }
  }

  lemma {:induction false} SomeListing(m: map<Uuid, Uuid>) returns (order: Order)
    ensures Lists(order, m)
    decreases |m|
  {
    if m == map[] {
      order := [];
    } else {
      var x :| x in m;
      var rest := SomeListing(m - {x});
      order := [(x, m[x])] + rest;
      ListCons(m, x, rest);
    }
  }

  lemma ListCons(m: map<Uuid, Uuid>, x: Uuid, rest: Order)
    requires x in m && Lists(rest, m - {x})
    ensures Lists([(x, m[x])] + rest, m)
  {
    var order := [(x, m[x])] + rest;
    assert forall i :: 0 < i < |order| ==> order[i] == rest[i - 1];
    forall y | y in m ensures exists i :: 0 <= i < |order| && order[i].0 == y {
      if y == x {
        assert order[0].0 == y;
      } else {
        assert y in m - {x};
        var i :| 0 <= i < |rest| && rest[i].0 == y;
        assert order[i + 1].0 == y;
      }
    }
  }

  /** A listing that ends with `x` and then the new id of `x`. */
  lemma ChainLast(m: map<Uuid, Uuid>, x: Uuid) returns (order: Order, rest: Order)
    requires x in m && m[x] in m && m[x] != x
    ensures Lists(order, m) && order == rest + [(x, m[x]), (m[x], m[m[x]])]
    ensures forall i :: 0 <= i < |rest| ==> rest[i].0 != x
  {
    var y := m[x];
    rest := SomeListing(m - {x, y});
    order := rest + [(x, y), (y, m[y])];
    forall z | z in m ensures exists i :: 0 <= i < |order| && order[i].0 == z {
      if z == x {
        assert order[|rest|].0 == z;
      } else if z == y {
        assert order[|rest| + 1].0 == z;
      } else {
        assert z in m - {x, y};
        var i :| 0 <= i < |rest| && rest[i].0 == z;
        assert order[i].0 == z;
      }
    }
  }

  /** Rewriting agrees with simultaneous substitution in every order of the map exactly when the new
      id is settled. */
  lemma OrderIndependent(m: map<Uuid, Uuid>, x: Uuid)
    ensures (forall order :: Lists(order, m) ==> Rewrite(x, order) == Subst(m, x)) <==> Settled(m, x)
  {
    if Settled(m, x) {
      forall order | Lists(order, m) ensures Rewrite(x, order) == Subst(m, x) {
        if x in m { RewriteSettled(m, x, order); } else { RewriteUntouched(x, order); }
      }
    } else {
      var y := m[x];
      var order, rest := ChainLast(m, x);
      RewriteUntouched(x, rest);
      RewriteConcat(x, rest, [(x, y), (y, m[y])]);
      assert Rewrite(x, [(x, y), (y, m[y])]) == m[y] by {
        var pair: Order := [(x, y), (y, m[y])];
        assert pair[1..] == [(y, m[y])];
        assert Rewrite(x, pair) == Rewrite(y, pair[1..]);
        assert pair[1..][1..] == [];
        assert Rewrite(y, pair[1..]) == Rewrite(m[y], []);
      }
      assert Rewrite(x, order) != Subst(m, x);
    }
  }

  /** Fresh new ids, disjoint from the old ones, settle every id. */
  lemma FreshIdsSettle(m: map<Uuid, Uuid>, x: Uuid)
    requires forall y :: y in m ==> m[y] !in m
    ensures forall order :: Lists(order, m) ==> Rewrite(x, order) == Subst(m, x)
  {
    OrderIndependent(m, x);
  }
}

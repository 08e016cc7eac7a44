/**
 * The update-and-prune loop that script.js runs over the burst particles,
 * the texts and each actor's trail: walk the list from its last index down to
 * 0, update the element, and `splice` it out when its life has reached 0.
 */
module Pruning {

  /** Every element after one update, in order. */
  function Updated<E>(s: seq<E>, update: E -> E): seq<E>
  {
    seq(|s|, i requires 0 <= i < |s| => update(s[i]))
  }

  /** The elements whose life is positive, in their original order. */
  function Alive<E>(s: seq<E>, life: E -> real): seq<E>
  {
    if s == [] then [] else (if life(s[0]) > 0.0 then [s[0]] else []) + Alive(s[1..], life)
  }

  /** What one pass leaves: each element updated once, the dead ones dropped. */
  function Survivors<E>(s: seq<E>, update: E -> E, life: E -> real): seq<E>
  {
    Alive(Updated(s, update), life)
  }

  /**
   * The reverse-index loop, on a list the loop mutates: the element at `i` is
   * replaced by its update and then removed when dead. Indices below `i` are
   * untouched, so removing at `i` never disturbs what is still to visit.
   */
  method UpdateAndPrune<E>(s: seq<E>, update: E -> E, life: E -> real) returns (r: seq<E>)
    ensures r == Survivors(s, update, life)
  {
    r := s;
    var i: int := |r| - 1;
    while i >= 0
      invariant -1 <= i < |s|
      invariant r == s[..i + 1] + Survivors(s[i + 1..], update, life)
    {
      SurvivorsCons(s[i..], update, life);
      assert s[i..][1..] == s[i + 1..];
      r := r[i := update(r[i])];
      if life(r[i]) <= 0.0 {
        r := r[..i] + r[i + 1..];
      }
      assert s[..i + 1] == s[..i] + [s[i]];
      i := i - 1;
    }
    assert s[0..] == s;
  }

  /** One pass, unfolded at the head of the list. */
  lemma SurvivorsCons<E>(s: seq<E>, update: E -> E, life: E -> real)
    requires s != []
    ensures Survivors(s, update, life)
      == (if life(update(s[0])) > 0.0 then [update(s[0])] else []) + Survivors(s[1..], update, life)
  {
    assert Updated(s, update)[1..] == Updated(s[1..], update);
  }

  /** Exactly the living elements are kept. */
  lemma {:induction false} AliveMembership<E>(s: seq<E>, life: E -> real, x: E)
    ensures x in Alive(s, life) <==> x in s && life(x) > 0.0
  {
    if s != [] {
      AliveMembership(s[1..], life, x);
      assert s == [s[0]] + s[1..];
    }
  }

  /** Dropping the dead preserves order: it distributes over concatenation. */
  lemma {:induction false} AliveAppend<E>(a: seq<E>, b: seq<E>, life: E -> real)
    ensures Alive(a + b, life) == Alive(a, life) + Alive(b, life)
  {
    if a == [] {
      assert a + b == b;
    } else {
      assert (a + b)[1..] == a[1..] + b;
      AliveAppend(a[1..], b, life);
    }
  }

  /** A list whose elements are all alive is kept whole. */
  lemma {:induction false} AliveAllLiving<E>(s: seq<E>, life: E -> real)
    requires forall i :: 0 <= i < |s| ==> life(s[i]) > 0.0
    ensures Alive(s, life) == s
  {
    if s != [] {
      AliveAllLiving(s[1..], life);
    }
  }

  /** A list whose elements are all dead is emptied. */
  lemma {:induction false} AliveAllDead<E>(s: seq<E>, life: E -> real)
    requires forall i :: 0 <= i < |s| ==> life(s[i]) <= 0.0
    ensures Alive(s, life) == []
  {
    if s != [] {
      AliveAllDead(s[1..], life);
    }
  }

  /** Every element of a pass's result is an updated element with positive life. */
  lemma SurvivorsAreUpdatedAndAlive<E>(s: seq<E>, update: E -> E, life: E -> real, x: E)
    ensures x in Survivors(s, update, life)
      <==> life(x) > 0.0 && exists i :: 0 <= i < |s| && x == update(s[i])
  {
    AliveMembership(Updated(s, update), life, x);
    if exists i :: 0 <= i < |s| && x == update(s[i]) {
      var i :| 0 <= i < |s| && x == update(s[i]);
      assert Updated(s, update)[i] == x;
    }
  }

  /** One pass over two lists joined is the two passes joined. */
  lemma SurvivorsAppend<E>(a: seq<E>, b: seq<E>, update: E -> E, life: E -> real)
    ensures Survivors(a + b, update, life) == Survivors(a, update, life) + Survivors(b, update, life)
  {
    assert Updated(a + b, update) == Updated(a, update) + Updated(b, update);
    AliveAppend(Updated(a, update), Updated(b, update), life);
  }
}

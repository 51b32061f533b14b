/**
 * The HUD registry: a factory of creators keyed by HUD state, and a manager
 * holding the live HUDs in a map together with their insertion order.
 *
 * A live HUD is seen through the three answers the manager asks of it; a HUD
 * that does not override a query answers false, as the interface's defaults do.
 */
module Hud {
  import opened NetTypes

  /** The manager's view of one live HUD. */
  datatype HudView = HudView(blocksInput: bool, wantsCursor: bool, exitSuppressPending: bool)

  /** What a HUD that overrides none of the queries answers. */
  const PlainHud: HudView := HudView(false, false, false)

  /** A sequence without repeated elements. */
  predicate NoDuplicates(xs: seq<int>) {
    forall i, j :: 0 <= i < j < |xs| ==> xs[i] != xs[j]
  }

  /** The sequence with every occurrence of `x` removed, the rest kept in order. */
  function Without(xs: seq<int>, x: int): (r: seq<int>)
    ensures x !in r
    ensures forall y :: y != x ==> (y in r <==> y in xs)
    ensures |r| <= |xs|
    decreases |xs|
  {
    if xs == [] then []
    else if xs[0] == x then Without(xs[1..], x)
    else [xs[0]] + Without(xs[1..], x)
  }

  /**
   * Removing an element that occurs once at position i leaves exactly the
   * elements before and after it, in their original order.
   */
  lemma {:induction false} WithoutAt(xs: seq<int>, i: nat)
    requires NoDuplicates(xs) && i < |xs|
    ensures Without(xs, xs[i]) == xs[..i] + xs[i + 1..]
    decreases |xs|
  {
    if i == 0 {
      WithoutAbsent(xs[1..], xs[0]);
    } else {
      WithoutAt(xs[1..], i - 1);
      assert xs[1..][i - 1] == xs[i];
      assert xs[..i] == [xs[0]] + xs[1..][..i - 1];
      assert xs[i + 1..] == xs[1..][i..];
    }
  }

  lemma {:induction false} WithoutKeepsDistinct(xs: seq<int>, x: int)
    requires NoDuplicates(xs)
    ensures NoDuplicates(Without(xs, x))
    decreases |xs|
  {
    if xs != [] {
      WithoutKeepsDistinct(xs[1..], x);
      if xs[0] != x {
        assert xs[0] !in xs[1..] by {
          forall k | 0 <= k < |xs[1..]|
            ensures xs[1..][k] != xs[0]
          {
            assert xs[1..][k] == xs[k + 1];
          }
        }
      }
    }
  }

  lemma {:induction false} WithoutAbsent(xs: seq<int>, x: int)
    requires x !in xs
    ensures Without(xs, x) == xs
    decreases |xs|
  {
    if xs != [] {
      WithoutAbsent(xs[1..], x);
      assert xs == [xs[0]] + xs[1..];
    }
  }

  class HudFactory {
    /** For each registered state, what its creator yields: a new HUD, or None for a null result. */
    var creators: map<int, Option<HudView>>

    constructor ()
      ensures creators == map[]
    {
      creators := map[];
    }

    /** A lookup: an unregistered state yields no HUD, a registered one what its creator yields. */
    function Create(state: int): (hud: Option<HudView>)
      reads this
      ensures state !in creators ==> hud.None?
      ensures state in creators ==> hud == creators[state]
    {
      if state in creators then creators[state] else None
    }

    /** Register overwrites the creator of `state` and leaves every other state's creator alone. */
    method Register(state: int, creator: Option<HudView>)
      modifies this
      ensures Create(state) == creator
      ensures forall other :: other != state ==> Create(other) == old(Create(other))
      ensures creators.Keys == old(creators.Keys) + {state}
    {
      creators := creators[state := creator];
    }
  }

  class HudManager {
    var factory: HudFactory?
    var huds: map<int, HudView>
    var order: seq<int>

    /** The map and the ordered list hold the same states, each listed once. */
    ghost predicate Valid()
      reads this
    {
      && NoDuplicates(order)
      && (forall i :: 0 <= i < |order| ==> order[i] in huds)
      && (forall s :: s in huds ==> s in order)
    }

    constructor (factory: HudFactory?)
      ensures Valid() && this.factory == factory
      ensures huds == map[] && order == []
    {
      this.factory := factory;
      huds := map[];
      order := [];
    }

    /** Present in the map, and so (while the structures agree) listed in the order. */
    predicate HasHud(state: int): (r: bool)
      reads this
      ensures r <==> state in huds
      ensures Valid() ==> (r <==> state in order)
    {
      state in huds
    }

    /**
     * A present state answers true and changes nothing; without a factory or
     * when the factory yields nothing it answers false and changes nothing;
     * otherwise the new HUD is stored and its state appended to the order.
     */
    method AddHud(state: int) returns (ok: bool)
      requires Valid()
      modifies this
      ensures Valid() && factory == old(factory)
      ensures old(HasHud(state)) ==> ok && huds == old(huds) && order == old(order)
      ensures !old(HasHud(state)) && (factory == null || factory.Create(state).None?) ==>
                !ok && huds == old(huds) && order == old(order)
      ensures !old(HasHud(state)) && factory != null && factory.Create(state).Some? ==>
                && ok && HasHud(state)
                && huds == old(huds)[state := factory.Create(state).value]
                && order == old(order) + [state]
    {
      if HasHud(state) {
        return true;
      }
      if factory == null {
        return false;
      }
      var hud := factory.Create(state);
      if hud.None? {
        return false;
      }
      order := order + [state];
      huds := huds[state := hud.value];
      ok := true;
    }

    /** An absent state is a no-op; a present one leaves both structures, the others keeping their order. */
    method RemoveHud(state: int)
      requires Valid()
      modifies this
      ensures Valid() && factory == old(factory)
      ensures !old(HasHud(state)) ==> huds == old(huds) && order == old(order)
      ensures old(HasHud(state)) ==>
                && !HasHud(state)
                && huds == old(huds) - {state}
                && exists i :: 0 <= i < |old(order)| && old(order)[i] == state
                               && order == old(order)[..i] + old(order)[i + 1..]
    {
      if state !in huds {
        return;
      }
      ghost var i :| 0 <= i < |order| && order[i] == state;
      WithoutAt(order, i);
      WithoutKeepsDistinct(order, state);
      huds := huds - {state};
      order := Without(order, state);
    }

    method Clear()
      modifies this
      ensures Valid() && huds == map[] && order == [] && factory == old(factory)
    {
      huds := map[];
      order := [];
    }

    /** The live HUDs are cleared before the factory is replaced. */
    method SetFactory(newFactory: HudFactory?)
      modifies this
      ensures Valid() && huds == map[] && order == [] && factory == newFactory
    {
      Clear();
      factory := newFactory;
    }

    /** True exactly when some live HUD blocks gameplay input. */
    method BlocksGameplayInput() returns (r: bool)
      requires Valid()
      ensures r <==> exists s :: s in huds && huds[s].blocksInput
    {
      var i := 0;
      while i < |order|
        invariant 0 <= i <= |order|
        invariant forall j :: 0 <= j < i ==> !huds[order[j]].blocksInput
      {
        var state := order[i];
        if state in huds && huds[state].blocksInput {
          return true;
        }
        i := i + 1;
      }
      forall s | s in huds
        ensures !huds[s].blocksInput
      {
        var j :| 0 <= j < |order| && order[j] == s;
      }
      return false;
    }

    /** True exactly when some live HUD wants the cursor visible. */
    method WantsCursorVisible() returns (r: bool)
      requires Valid()
      ensures r <==> exists s :: s in huds && huds[s].wantsCursor
    {
      var i := 0;
      while i < |order|
        invariant 0 <= i <= |order|
        invariant forall j :: 0 <= j < i ==> !huds[order[j]].wantsCursor
      {
        var state := order[i];
        if state in huds && huds[state].wantsCursor {
          return true;
        }
        i := i + 1;
      }
      forall s | s in huds
        ensures !huds[s].wantsCursor
      {
        var j :| 0 <= j < |order| && order[j] == s;
      }
      return false;
    }

    /**
     * Every live HUD is asked, none skipped after a true answer: the result is
     * true exactly when some HUD had a pending request, and afterwards none
     * has one.  The set of HUDs and their other answers are unchanged.
     */
    method ConsumeExitSuppressRequest() returns (consumed: bool)
      requires Valid()
      modifies this
      ensures Valid() && order == old(order) && factory == old(factory)
      ensures consumed <==> exists s :: s in old(huds) && old(huds)[s].exitSuppressPending
      ensures huds.Keys == old(huds).Keys
      ensures forall s :: s in huds ==> huds[s] == old(huds)[s].(exitSuppressPending := false)
    {
      consumed := false;
      var i := 0;
      while i < |order|
        invariant 0 <= i <= |order|
        invariant Valid() && order == old(order) && factory == old(factory)
        invariant huds.Keys == old(huds).Keys
        invariant forall j :: 0 <= j < i ==> huds[order[j]] == old(huds)[order[j]].(exitSuppressPending := false)
        invariant forall j :: i <= j < |order| ==> huds[order[j]] == old(huds)[order[j]]
        invariant consumed <==> exists j :: 0 <= j < i && old(huds)[order[j]].exitSuppressPending
      {
        var state := order[i];
        if state in huds {
          var hud := huds[state];
          if hud.exitSuppressPending {
            consumed := true;
          }
          huds := huds[state := hud.(exitSuppressPending := false)];
        }
        i := i + 1;
      }
      forall s | s in huds
        ensures huds[s] == old(huds)[s].(exitSuppressPending := false)
      {
        var j :| 0 <= j < |order| && order[j] == s;
      }
      if consumed {
        ghost var j :| 0 <= j < |order| && old(huds)[order[j]].exitSuppressPending;
        assert order[j] in old(huds);
      }
      forall s | s in old(huds) && old(huds)[s].exitSuppressPending
        ensures consumed
      {
        var j :| 0 <= j < |order| && order[j] == s;
      }
    }
  }
}

/**
 * Predicates over items and the visibility filter: a repeatable pass over
 * a group that sets each visited item visible exactly when the test
 * predicate holds of it.
 */
module Filter {
  import opened Geometry
  import opened Items

  /** A predicate: an atomic test, "the item is visible", or a disjunction. */
  datatype Predicate = Test(f: Item -> bool) | VisibleTrue | Or(left: Predicate, right: Predicate)

  predicate Eval(p: Predicate, it: Item) {
    match p
    case Test(f) => f(it)
    case VisibleTrue => it.visible
    case Or(l, r) => Eval(l, it) || Eval(r, it)
  }

  /**
   * The rows the filter visits: those of the group that satisfy `p` or are
   * visible. A pass changes no row it does not visit.
   */
  function Visits(items: seq<Item>, group: string, p: Predicate): (v: set<nat>)
    ensures forall i :: 0 <= i < |items| && i !in v ==> Refiltered(items, group, p)[i] == items[i]
  {
    set i: nat | i < |items| && items[i].group == group && (Eval(p, items[i]) || items[i].visible)
  }

  /**
   * The item table after one filter pass: in the group, an item is visible
   * exactly when `p` holds of it; every other field, and every item outside
   * the group, is as before.
   */
  function Refiltered(items: seq<Item>, group: string, p: Predicate): (r: seq<Item>)
    ensures |r| == |items|
    ensures forall i :: 0 <= i < |items| && items[i].group == group ==> (r[i].visible <==> Eval(p, items[i]))
    ensures forall i :: 0 <= i < |items| ==> r[i] == items[i].(visible := r[i].visible)
    ensures forall i :: 0 <= i < |items| && items[i].group != group ==> r[i] == items[i]
  {
    seq(|items|, i requires 0 <= i < |items| =>
      if items[i].group == group && (Eval(p, items[i]) || items[i].visible)
      then items[i].(visible := Eval(p, items[i]))
      else items[i])
  }

  /** The iteration filter `p OR visible` admits exactly the items that satisfy `p` or are visible. */
  lemma EvalFilter(p: Predicate, it: Item)
    ensures Eval(Or(p, VisibleTrue), it) <==> Eval(p, it) || it.visible
  {
  }

  /** `p` gives the same answer whatever the item's visibility flag. */
  ghost predicate IgnoresVisibility(p: Predicate) {
    forall it: Item, v: bool {:trigger Eval(p, it.(visible := v))} :: Eval(p, it.(visible := v)) == Eval(p, it)
  }

  class VisibilityFilter {
    const group: string
    var test: Predicate
    var filter: Predicate

    ghost predicate Valid()
      reads this
    {
      filter == Or(test, VisibleTrue)
    }

    constructor (group: string, p: Predicate)
      ensures Valid() && this.group == group && test == p
    {
      this.group := group;
      test := p;
      filter := Or(p, VisibleTrue);
    }

    /** Stores `p` as the test predicate and `p OR visible` as the iteration filter. */
    method SetPredicate(p: Predicate)
      modifies this`test, this`filter
      ensures Valid() && test == p && filter == Or(p, VisibleTrue)
    {
      test := p;
      filter := Or(p, VisibleTrue);
    }

    /**
     * One pass: every item of the group that passes the filter has its
     * visibility set to the test predicate. `visited` names the rows written.
     */
    method Run(frac: real, items: array<Item>) returns (ghost visited: set<nat>)
      requires Valid()
      modifies items
      ensures items[..] == Refiltered(old(items[..]), group, test)
      ensures visited == Visits(old(items[..]), group, test)
      ensures forall i :: 0 <= i < items.Length && i !in visited ==> items[i] == old(items[i])
    {
      visited := {};
      var i := 0;
      while i < items.Length
        invariant i <= items.Length
        invariant forall k :: 0 <= k < i ==> items[k] == Refiltered(old(items[..]), group, test)[k]
        invariant forall k :: i <= k < items.Length ==> items[k] == old(items[k])
        invariant visited == Visits(old(items[..i]), group, test)
      {
        var it := items[i];
        EvalFilter(test, it);
        if it.group == group && Eval(filter, it) {
          items[i] := it.(visible := Eval(test, it));
          visited := visited + {i};
        }
        assert old(items[..i + 1]) == old(items[..i]) + [it];
        i := i + 1;
      }
      assert old(items[..i]) == old(items[..]);
    }
  }

  /**
   * Running the filter twice gives the flags of running it once, provided
   * the test predicate does not read the visibility flag.
   */
  lemma RefilterIdempotent(items: seq<Item>, group: string, p: Predicate)
    requires IgnoresVisibility(p)
    ensures Refiltered(Refiltered(items, group, p), group, p) == Refiltered(items, group, p)
  {
    var once := Refiltered(items, group, p);
    var twice := Refiltered(once, group, p);
    forall i | 0 <= i < |items| ensures twice[i] == once[i] {
      assert Eval(p, items[i].(visible := once[i].visible)) == Eval(p, items[i]);
    }
  }

  /**
   * Without that proviso the pass is not idempotent: a test "is invisible"
   * turns a hidden item on, and the next pass turns it off again.
   */
  lemma VisibilityReadingTestFlips(it: Item)
    requires !it.visible
    ensures var p := Test((x: Item) => !x.visible);
      var once := Refiltered([it], it.group, p);
      once[0].visible && !Refiltered(once, it.group, p)[0].visible
  {
  }

  /**
   * Test "x > 5" on items at x = 3, 7, 10: after a pass exactly the last
   * two are visible; after the third moves to x = 2, a second pass hides it
   * and keeps the second visible.
   */
  lemma FilterExample(a: Item, b: Item, c: Item, g: string)
    requires a.group == b.group == c.group == g
    requires a.x == Finite(3.0) && b.x == Finite(7.0) && c.x == Finite(10.0)
    ensures var p := Test((x: Item) => x.x.Finite? && x.x.v > 5.0);
      var once := Refiltered([a, b, c], g, p);
      !once[0].visible && once[1].visible && once[2].visible &&
      var twice := Refiltered([once[0], once[1], once[2].(x := Finite(2.0))], g, p);
      !twice[0].visible && twice[1].visible && !twice[2].visible
  {
  }
}

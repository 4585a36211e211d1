/**
 * The inventory panel: the player's items are listed in a text node, one section per
 * item, hand first, then belt, then backpack, with a line break section between any
 * two items. Items are modelled by their display text; fonts and styles are not.
 */
module Ui {
  import opened Wrappers
  import opened Ecs

  /** A player's inventory: an item in the hand and on the belt, if any, and the backpack. */
  datatype Inventory = Inventory(hand: Option<string>, belt: Option<string>, backpack: seq<string>)

  /** The section put between two items. */
  const Separator: string := "\n"

  /**
   * The items of the inventory in listing order: the hand item, then the belt item,
   * then the backpack in its own order; an empty slot adds nothing.
   */
  function Listed(inv: Inventory): (r: seq<string>)
    ensures |r| == |inv.hand.ToSeq()| + |inv.belt.ToSeq()| + |inv.backpack|
    ensures inv.hand.Some? ==> r[0] == inv.hand.value
    ensures inv.belt.Some? ==> r[|inv.hand.ToSeq()|] == inv.belt.value
    ensures r[|r| - |inv.backpack|..] == inv.backpack
  {
    inv.hand.ToSeq() + inv.belt.ToSeq() + inv.backpack
  }

  /**
   * `intersperse`: `sep` between every two consecutive elements and nowhere else;
   * `n >= 1` elements give `2n - 1` entries and none give none.
   */
  function Intersperse<T>(xs: seq<T>, sep: T): (r: seq<T>)
    ensures |r| == if |xs| == 0 then 0 else 2 * |xs| - 1
  {
    if |xs| <= 1 then xs else [xs[0], sep] + Intersperse(xs[1..], sep)
  }

  /** The elements sit at the even positions in their order, the separators at the odd ones. */
  lemma {:induction false} IntersperseAt<T>(xs: seq<T>, sep: T)
    ensures var r := Intersperse(xs, sep);
      forall i :: 0 <= i < |r| ==> r[i] == if i % 2 == 0 then xs[i / 2] else sep
  {
    if |xs| > 1 {
      var r := Intersperse(xs, sep);
      var t := Intersperse(xs[1..], sep);
      IntersperseAt(xs[1..], sep);
      assert r == [xs[0], sep] + t;
      forall i | 2 <= i < |r|
        ensures r[i] == if i % 2 == 0 then xs[i / 2] else sep
      {
        var j := i - 2;
        assert r[i] == t[j];
        assert j % 2 == i % 2 && j / 2 == i / 2 - 1;
        if i % 2 == 0 {
          assert t[j] == xs[1..][j / 2] == xs[i / 2];
        } else {
          assert 0 <= j < |t| && j % 2 != 0;
          assert t[j] == sep;
        }
      }
    }
  }

  /** Every other entry, starting with the first. */
  function Evens<T>(s: seq<T>): (r: seq<T>)
    ensures |r| == (|s| + 1) / 2
  {
    if |s| <= 1 then s else [s[0]] + Evens(s[2..])
  }

  /** Dropping the separators gives the items back: nothing is lost, reordered or added. */
  lemma {:induction false} EvensOfIntersperse<T>(xs: seq<T>, sep: T)
    ensures Evens(Intersperse(xs, sep)) == xs
  {
    if |xs| > 1 {
      var r := Intersperse(xs, sep);
      assert r == [xs[0], sep] + Intersperse(xs[1..], sep);
      assert r[2..] == Intersperse(xs[1..], sep);
      EvensOfIntersperse(xs[1..], sep);
    }
  }

  /** The list neither starts nor ends with a separator: its ends are the first and the last item. */
  lemma {:induction false} NoOuterSeparator<T>(xs: seq<T>, sep: T)
    requires |xs| > 0
    ensures var r := Intersperse(xs, sep);
      r[0] == xs[0] && r[|r| - 1] == xs[|xs| - 1]
  {
    if |xs| > 1 {
      var r := Intersperse(xs, sep);
      var t := Intersperse(xs[1..], sep);
      NoOuterSeparator(xs[1..], sep);
      assert r == [xs[0], sep] + t;
      assert r[|r| - 1] == t[|t| - 1];
    }
  }

  /** The sections the inventory panel shows for an inventory. */
  function InventorySections(inv: Inventory): (r: seq<string>)
    ensures |r| == if |Listed(inv)| == 0 then 0 else 2 * |Listed(inv)| - 1
    ensures Evens(r) == Listed(inv)
    ensures forall i :: 0 <= i < |r| && i % 2 == 1 ==> r[i] == Separator
  {
    EvensOfIntersperse(Listed(inv), Separator);
    IntersperseAt(Listed(inv), Separator);
    Intersperse(Listed(inv), Separator)
  }

  /** The `Text` of the inventory panel: its list of sections. */
  class InventoryText {
    var sections: seq<string>

    constructor ()
      ensures sections == []
    {
      sections := [];
    }
  }

  /**
   * `update_inventory`: with a player inventory and a panel, the first panel's text
   * is replaced by the sections of the first player's inventory; otherwise nothing
   * changes.
   */
  method UpdateInventory(inventories: seq<Inventory>, texts: seq<InventoryText>)
    modifies First(texts)`sections
    ensures |inventories| > 0 && |texts| > 0 ==> texts[0].sections == InventorySections(inventories[0])
    ensures |inventories| == 0 && |texts| > 0 ==> texts[0].sections == old(texts[0].sections)
  {
    if |inventories| > 0 {
      if |texts| > 0 {
        var items := Listed(inventories[0]);
        texts[0].sections := Intersperse(items, Separator);
      }
    }
  }
}

/**
 * The order cart: a map from (machine, part code) to a cart line holding the
 * part's description and the ordered quantity, together with the three ways
 * the page changes it (bulk add from the parts list, the quantity editor of
 * the order summary, and "Empty cart") and the totals the summary shows.
 */
module Orders {
  import opened Keys
  import opened Wrappers

  /** One cart line: the cached part description and the ordered quantity. */
  datatype Line = Line(description: string, quantity: nat)

  type CartMap = map<Key, Line>

  /** The cart's invariant: no line with quantity 0 is ever kept. */
  predicate Positive(cart: CartMap)
  {
    forall k :: k in cart ==> cart[k].quantity >= 1
  }

  /** The quantity ordered for a key, 0 when the key has no line. */
  function QtyOf(cart: CartMap, k: Key): nat
  {
    if k in cart then cart[k].quantity else 0
  }

  // ---------------------------------------------------------------------
  // Enumeration in key order
  // ---------------------------------------------------------------------

  /** The cart's lines in ascending key order, as `sorted(cart.items())` gives them. */
  function SortedItems(cart: CartMap): (r: seq<(Key, Line)>)
    ensures |r| == |cart|
    ensures forall i :: 0 <= i < |r| ==> r[i].0 in cart && r[i].1 == cart[r[i].0]
    ensures forall k :: k in cart ==> exists i :: 0 <= i < |r| && r[i].0 == k
  {
    var ks := SortedKeys(cart.Keys);
    var r := ItemsOf(cart, ks);
    assert forall k :: k in cart ==> exists i :: 0 <= i < |r| && r[i].0 == k by {
      forall k | k in cart
        ensures exists i :: 0 <= i < |r| && r[i].0 == k
      {
        assert k in ks;
        var i :| 0 <= i < |ks| && ks[i] == k;
        assert r[i].0 == k;
      }
    }
    r
  }

  /** The enumeration is in strictly ascending key order. */
  lemma SortedItemsAscending(cart: CartMap)
    ensures forall i, j :: 0 <= i < j < |SortedItems(cart)| ==> KeyLt(SortedItems(cart)[i].0, SortedItems(cart)[j].0)
  {
    SortedKeysSorted(cart.Keys);
  }

  /** Pairs each listed key with its line. */
  function ItemsOf(cart: CartMap, ks: seq<Key>): (r: seq<(Key, Line)>)
    requires forall i :: 0 <= i < |ks| ==> ks[i] in cart
    ensures |r| == |ks|
    ensures forall i :: 0 <= i < |r| ==> r[i] == (ks[i], cart[ks[i]])
  {
    seq(|ks|, i requires 0 <= i < |ks| => (ks[i], cart[ks[i]]))
  }

  // ---------------------------------------------------------------------
  // Total quantity
  // ---------------------------------------------------------------------

  /** The sum of every line's quantity, independent of any enumeration order. */
  ghost function SumQty(cart: CartMap): (r: nat)
    decreases |cart|
  {
    if cart == map[] then 0
    else
      var k :| k in cart;
      assert |(cart - {k}).Keys| < |cart.Keys| by {
        assert (cart - {k}).Keys == cart.Keys - {k};
      }
      cart[k].quantity + SumQty(cart - {k})
  }

  /** Taking any one line out of the sum leaves the sum of the others. */
  lemma {:induction false} SumRemove(cart: CartMap, k: Key)
    requires k in cart
    ensures SumQty(cart) == cart[k].quantity + SumQty(cart - {k})
    decreases |cart|
  {
    var j :| j in cart && SumQty(cart) == cart[j].quantity + SumQty(cart - {j});
    if j != k {
      assert |(cart - {j}).Keys| < |cart.Keys| by {
        assert (cart - {j}).Keys == cart.Keys - {j};
      }
      assert |(cart - {k}).Keys| < |cart.Keys| by {
        assert (cart - {k}).Keys == cart.Keys - {k};
      }
      SumRemove(cart - {j}, k);
      SumRemove(cart - {k}, j);
      assert (cart - {j}) - {k} == (cart - {k}) - {j};
    }
  }

  /** With every quantity positive, the total quantity is at least the number of lines. */
  lemma {:induction false} SumQtyCoversLines(cart: CartMap)
    requires Positive(cart)
    ensures SumQty(cart) >= |cart|
    decreases |cart|
  {
    if cart != map[] {
      var k :| k in cart;
      SumRemove(cart, k);
      assert (cart - {k}).Keys == cart.Keys - {k};
      SumQtyCoversLines(cart - {k});
    }
  }

  lemma SumInsert(cart: CartMap, k: Key, v: Line)
    requires k !in cart
    ensures SumQty(cart[k := v]) == SumQty(cart) + v.quantity
  {
    SumRemove(cart[k := v], k);
    assert cart[k := v] - {k} == cart;
  }

  lemma SumUpdate(cart: CartMap, k: Key, v: Line)
    requires k in cart
    ensures SumQty(cart[k := v]) == SumQty(cart) - cart[k].quantity + v.quantity
  {
    SumRemove(cart[k := v], k);
    SumRemove(cart, k);
    assert cart[k := v] - {k} == cart - {k};
  }

  /** The sum over a list of keys of the cart. */
  function SumKeys(cart: CartMap, ks: seq<Key>): nat
    requires forall i :: 0 <= i < |ks| ==> ks[i] in cart
    decreases |ks|
  {
    if ks == [] then 0
    else cart[ks[0]].quantity + SumKeys(cart, ks[1..])
  }

  lemma {:induction false} SumKeysAgree(c1: CartMap, c2: CartMap, ks: seq<Key>)
    requires forall i :: 0 <= i < |ks| ==> ks[i] in c1 && ks[i] in c2 && c1[ks[i]] == c2[ks[i]]
    ensures SumKeys(c1, ks) == SumKeys(c2, ks)
    decreases |ks|
  {
    if ks != [] {
      SumKeysAgree(c1, c2, ks[1..]);
    }
  }

  /** Accumulating over a repetition-free listing of all keys gives the total. */
  lemma {:induction false} SumKeysAll(cart: CartMap, ks: seq<Key>)
    requires Distinct(ks)
    requires forall k :: k in cart <==> k in ks
    ensures SumKeys(cart, ks) == SumQty(cart)
    decreases |ks|
  {
    if ks == [] {
      assert cart == map[] by {
        assert forall k :: k !in cart;
      }
    } else {
      var first := ks[0];
      var rest := cart - {first};
      var tail := ks[1..];
      assert forall j :: 0 <= j < |tail| ==> tail[j] == ks[j + 1];
      forall k
        ensures k in rest <==> k in tail
      {
        if k in tail {
          var j :| 0 <= j < |tail| && tail[j] == k;
          assert ks[0] != ks[j + 1];
        }
        if k in rest {
          var j :| 0 <= j < |ks| && ks[j] == k;
          assert tail[j - 1] == k;
        }
      }
      SumKeysAgree(cart, rest, tail);
      SumKeysAll(rest, tail);
      SumRemove(cart, first);
    }
  }

  // ---------------------------------------------------------------------
  // Bulk add ("Add Selected Items")
  // ---------------------------------------------------------------------

  /** A row of the parts list: the part's key fields, its description and the quantity typed next to it. */
  datatype Selection = Selection(machine: string, code: string, description: string, quantity: int)

  function KeyOf(sel: Selection): Key
  {
    Key(sel.machine, sel.code)
  }

  /**
   * The effect of one selected part: a non-positive quantity is skipped; a
   * positive one is merged into an existing line (its description kept) or
   * creates a new line.
   */
  function AddPart(cart: CartMap, sel: Selection): (r: CartMap)
    ensures sel.quantity <= 0 ==> r == cart
    ensures sel.quantity > 0 ==> r.Keys == cart.Keys + {KeyOf(sel)}
    ensures sel.quantity > 0 && KeyOf(sel) in cart ==>
              r[KeyOf(sel)].description == cart[KeyOf(sel)].description &&
              r[KeyOf(sel)].quantity == cart[KeyOf(sel)].quantity + sel.quantity
    ensures sel.quantity > 0 && KeyOf(sel) !in cart ==>
              r[KeyOf(sel)] == Line(sel.description, sel.quantity)
    ensures forall k :: k in cart && k != KeyOf(sel) ==> k in r && r[k] == cart[k]
  {
    var key := KeyOf(sel);
    if sel.quantity > 0 then
      if key in cart then
        cart[key := Line(cart[key].description, cart[key].quantity + sel.quantity)]
      else
        cart[key := Line(sel.description, sel.quantity)]
    else
      cart
  }

  /** The cart after the selected parts have been added in list order. */
  function AddAll(cart: CartMap, sels: seq<Selection>): (r: CartMap)
    ensures cart.Keys <= r.Keys
    decreases |sels|
  {
    if sels == [] then cart
    else AddPart(AddAll(cart, sels[..|sels| - 1]), sels[|sels| - 1])
  }

  /** Extending the selection list by one part applies one more step of the bulk add. */
  lemma AddAllNext(cart: CartMap, sels: seq<Selection>, i: nat)
    requires i < |sels|
    ensures AddAll(cart, sels[..i + 1]) == AddPart(AddAll(cart, sels[..i]), sels[i])
    ensures CountAdded(sels[..i + 1]) == CountAdded(sels[..i]) + (if sels[i].quantity > 0 then 1 else 0)
  {
    assert sels[..i + 1][..i] == sels[..i];
  }

  /** How many selected parts carry a positive quantity (the `added` counter). */
  function CountAdded(sels: seq<Selection>): (r: nat)
    ensures r <= |sels|
    decreases |sels|
  {
    if sels == [] then 0
    else CountAdded(sels[..|sels| - 1]) + (if sels[|sels| - 1].quantity > 0 then 1 else 0)
  }

  /** The quantity of `sel`, or 0 when the part is skipped. */
  function Taken(sel: Selection): nat
  {
    if sel.quantity > 0 then sel.quantity else 0
  }

  /** The total of the positive quantities selected for key `k`. */
  function SelectedFor(sels: seq<Selection>, k: Key): nat
    decreases |sels|
  {
    if sels == [] then 0
    else SelectedFor(sels[..|sels| - 1], k) + (if KeyOf(sels[|sels| - 1]) == k then Taken(sels[|sels| - 1]) else 0)
  }

  /** The total of all positive quantities selected. */
  function SelectedTotal(sels: seq<Selection>): nat
    decreases |sels|
  {
    if sels == [] then 0
    else SelectedTotal(sels[..|sels| - 1]) + Taken(sels[|sels| - 1])
  }

  /**
   * Merge law: after a bulk add the quantity for every key is what it was plus
   * every positive quantity selected for it, and a key has a line exactly when
   * it had one before or some positive quantity was selected for it.
   */
  lemma {:induction false} AddAllQuantity(cart: CartMap, sels: seq<Selection>, k: Key)
    ensures QtyOf(AddAll(cart, sels), k) == QtyOf(cart, k) + SelectedFor(sels, k)
    ensures k in AddAll(cart, sels) <==> k in cart || SelectedFor(sels, k) > 0
    decreases |sels|
  {
    if sels != [] {
      AddAllQuantity(cart, sels[..|sels| - 1], k);
    }
  }

  /** A bulk add never changes the description of a line that already exists. */
  lemma {:induction false} AddAllKeepsDescription(cart: CartMap, sels: seq<Selection>, k: Key)
    requires k in cart
    ensures k in AddAll(cart, sels)
    ensures AddAll(cart, sels)[k].description == cart[k].description
    decreases |sels|
  {
    if sels != [] {
      AddAllKeepsDescription(cart, sels[..|sels| - 1], k);
    }
  }

  /** A bulk add keeps every line's quantity positive. */
  lemma {:induction false} AddAllPositive(cart: CartMap, sels: seq<Selection>)
    requires Positive(cart)
    ensures Positive(AddAll(cart, sels))
    decreases |sels|
  {
    if sels != [] {
      AddAllPositive(cart, sels[..|sels| - 1]);
    }
  }

  /** A bulk add raises the total quantity by exactly the positive quantities selected. */
  lemma {:induction false} AddAllTotal(cart: CartMap, sels: seq<Selection>)
    ensures SumQty(AddAll(cart, sels)) == SumQty(cart) + SelectedTotal(sels)
    decreases |sels|
  {
    if sels != [] {
      var prefix := sels[..|sels| - 1];
      var sel := sels[|sels| - 1];
      var before := AddAll(cart, prefix);
      assert AddAll(cart, sels) == AddPart(before, sel);
      assert SelectedTotal(sels) == SelectedTotal(prefix) + Taken(sel);
      AddAllTotal(cart, prefix);
      if sel.quantity > 0 {
        var key := KeyOf(sel);
        if key in before {
          var v := Line(before[key].description, before[key].quantity + sel.quantity);
          assert AddPart(before, sel) == before[key := v];
          SumUpdate(before, key, v);
        } else {
          var v := Line(sel.description, sel.quantity);
          assert AddPart(before, sel) == before[key := v];
          SumInsert(before, key, v);
        }
      }
    }
  }

  lemma {:induction false} CountAddedPositive(sels: seq<Selection>)
    ensures CountAdded(sels) > 0 <==> SelectedTotal(sels) > 0
    decreases |sels|
  {
    if sels != [] {
      CountAddedPositive(sels[..|sels| - 1]);
    }
  }

  lemma {:induction false} NothingAddedUnchanged(cart: CartMap, sels: seq<Selection>)
    requires CountAdded(sels) == 0
    ensures AddAll(cart, sels) == cart
    decreases |sels|
  {
    if sels != [] {
      NothingAddedUnchanged(cart, sels[..|sels| - 1]);
    }
  }

  /**
   * "No quantity selected": the cart is left exactly as it was if and only if
   * the `added` counter is 0.
   */
  lemma AddAllUnchangedIff(cart: CartMap, sels: seq<Selection>)
    ensures AddAll(cart, sels) == cart <==> CountAdded(sels) == 0
  {
    if CountAdded(sels) == 0 {
      NothingAddedUnchanged(cart, sels);
    } else {
      CountAddedPositive(sels);
      AddAllTotal(cart, sels);
    }
  }

  // ---------------------------------------------------------------------
  // Quantity editor of the order summary
  // ---------------------------------------------------------------------

  /**
   * The effect of a line's quantity editor: an unchanged value does nothing;
   * a changed value of 0 removes the line; any other changed value replaces
   * the quantity (it is not added to it). Other lines are untouched.
   */
  function Edited(cart: CartMap, key: Key, newQty: nat): (r: CartMap)
    requires key in cart
    ensures newQty == cart[key].quantity ==> r == cart
    ensures newQty != cart[key].quantity && newQty == 0 ==> r.Keys == cart.Keys - {key}
    ensures newQty > 0 ==> r.Keys == cart.Keys && r[key] == Line(cart[key].description, newQty)
    ensures forall k :: k in r && k != key ==> k in cart && r[k] == cart[k]
  {
    if newQty != cart[key].quantity then
      if newQty == 0 then cart - {key}
      else cart[key := Line(cart[key].description, newQty)]
    else
      cart
  }

  /** Both totals after an edit: setting 0 drops one line, anything else replaces one quantity. */
  lemma EditedTotals(cart: CartMap, key: Key, newQty: nat)
    requires Positive(cart) && key in cart
    ensures Positive(Edited(cart, key, newQty))
    ensures |Edited(cart, key, newQty)| == if newQty == 0 then |cart| - 1 else |cart|
    ensures SumQty(Edited(cart, key, newQty)) == SumQty(cart) - cart[key].quantity + newQty
  {
    if newQty == 0 {
      SumRemove(cart, key);
      assert (cart - {key}).Keys == cart.Keys - {key};
    } else if newQty != cart[key].quantity {
      SumUpdate(cart, key, Line(cart[key].description, newQty));
    }
  }

  /** Bulk add merges while the editor overwrites: the two paths disagree for any positive amount. */
  lemma AddMergesEditOverwrites(cart: CartMap, sel: Selection)
    requires KeyOf(sel) in cart && sel.quantity > 0
    ensures AddPart(cart, sel)[KeyOf(sel)].quantity == cart[KeyOf(sel)].quantity + sel.quantity
    ensures Edited(cart, KeyOf(sel), sel.quantity)[KeyOf(sel)].quantity == sel.quantity
  {
  }

  // ---------------------------------------------------------------------
  // Order summary pass
  // ---------------------------------------------------------------------

  /** What the order summary displays: number of lines and total quantity. */
  datatype Totals = Totals(lineCount: nat, quantity: nat)

  /**
   * What the order summary ends with: the "Cart is empty" notice, a restart
   * of the page after a line was removed, or the totals line.
   */
  datatype Summary = EmptyCart | Restarted | Shown(totals: Totals)

  /** The cart once every editor has been applied, when none of them asked for 0. */
  function Reviewed(cart: CartMap, entered: map<Key, nat>): (r: CartMap)
    ensures r.Keys == cart.Keys
  {
    map k | k in cart :: if k in entered && entered[k] != 0 then Line(cart[k].description, entered[k]) else cart[k]
  }

  /** Some displayed line's editor holds 0. */
  predicate AsksRemoval(cart: CartMap, entered: map<Key, nat>)
  {
    exists k :: k in cart && k in entered && entered[k] == 0
  }

  /** The value a line's editor holds: what the user typed, or else the current quantity. */
  function EnteredQty(cart: CartMap, entered: map<Key, nat>, k: Key): nat
    requires k in cart
  {
    if k in entered then entered[k] else cart[k].quantity
  }

  /**
   * The rest of the summary pass, from position `i` of the key listing `ks`,
   * with `total` accumulated so far: each line's editor is applied in turn; a
   * removal ends the pass with no totals, otherwise the line's (new)
   * quantity is added to the total.
   */
  function ReviewFrom(cart: CartMap, entered: map<Key, nat>, ks: seq<Key>, i: nat, total: nat): (r: (CartMap, Option<nat>))
    requires i <= |ks|
    requires Distinct(ks)
    requires forall j :: i <= j < |ks| ==> ks[j] in cart
    ensures r.0.Keys <= cart.Keys
    ensures r.1.Some? ==> r.1.value >= total
    decreases |ks| - i
  {
    if i == |ks| then (cart, Some(total))
    else
      var k := ks[i];
      var q := EnteredQty(cart, entered, k);
      var next := Edited(cart, k, q);
      if q != cart[k].quantity && q == 0 then (next, None)
      else ReviewFrom(next, entered, ks, i + 1, total + next[k].quantity)
  }

  /**
   * One step of the pass over a cart of positive quantities: an editor set to
   * 0 ends the pass with the line removed; any other value continues with the
   * edited cart, in which the later keys are all still present.
   */
  lemma ReviewFromStep(cart: CartMap, entered: map<Key, nat>, ks: seq<Key>, i: nat, total: nat)
    requires Positive(cart)
    requires i < |ks| && Distinct(ks)
    requires forall j :: i <= j < |ks| ==> ks[j] in cart
    ensures EnteredQty(cart, entered, ks[i]) == 0 ==>
              ReviewFrom(cart, entered, ks, i, total) == (cart - {ks[i]}, None)
    ensures EnteredQty(cart, entered, ks[i]) != 0 ==>
              var next := Edited(cart, ks[i], EnteredQty(cart, entered, ks[i]));
              Positive(next) &&
              (forall j :: i + 1 <= j < |ks| ==> ks[j] in next) &&
              ReviewFrom(cart, entered, ks, i, total) == ReviewFrom(next, entered, ks, i + 1, total + next[ks[i]].quantity)
  {
    var k := ks[i];
    var q := EnteredQty(cart, entered, k);
    var next := Edited(cart, k, q);
    if q != 0 {
      forall j | i + 1 <= j < |ks|
        ensures ks[j] in next
      {
        assert ks[j] != k;
      }
    }
  }

  /** Applying one non-removing editor does not change what the whole review leads to. */
  lemma ReviewedStable(cart: CartMap, entered: map<Key, nat>, k: Key)
    requires k in cart
    requires EnteredQty(cart, entered, k) != 0
    ensures Reviewed(Edited(cart, k, EnteredQty(cart, entered, k)), entered) == Reviewed(cart, entered)
  {
  }

  /** The pass keeps every quantity positive, and leaves each line either as it was or reviewed. */
  lemma {:induction false} ReviewFromKeeps(cart: CartMap, entered: map<Key, nat>, ks: seq<Key>, i: nat, total: nat)
    requires i <= |ks|
    requires Positive(cart)
    requires Distinct(ks)
    requires forall j :: i <= j < |ks| ==> ks[j] in cart
    ensures Positive(ReviewFrom(cart, entered, ks, i, total).0)
    ensures forall k :: k in ReviewFrom(cart, entered, ks, i, total).0 ==>
              k in cart && (ReviewFrom(cart, entered, ks, i, total).0[k] == cart[k] ||
                            ReviewFrom(cart, entered, ks, i, total).0[k] == Reviewed(cart, entered)[k])
    decreases |ks| - i
  {
    if i < |ks| {
      var k := ks[i];
      var q := EnteredQty(cart, entered, k);
      var next := Edited(cart, k, q);
      ReviewFromStep(cart, entered, ks, i, total);
      var r := ReviewFrom(cart, entered, ks, i, total).0;
      if q != 0 {
        ReviewedStable(cart, entered, k);
        ReviewFromKeeps(next, entered, ks, i + 1, total + next[k].quantity);
        assert r == ReviewFrom(next, entered, ks, i + 1, total + next[k].quantity).0;
        forall x | x in r
          ensures x in cart && (r[x] == cart[x] || r[x] == Reviewed(cart, entered)[x])
        {
          if x == k {
            assert next[k] == cart[k] || next[k] == Reviewed(cart, entered)[k];
          }
        }
      }
    }
  }

  /** The pass shows totals exactly when no editor from position `i` on holds 0. */
  lemma {:induction false} ReviewFromShowsIff(cart: CartMap, entered: map<Key, nat>, ks: seq<Key>, i: nat, total: nat)
    requires i <= |ks|
    requires Positive(cart)
    requires Distinct(ks)
    requires forall j :: i <= j < |ks| ==> ks[j] in cart
    ensures ReviewFrom(cart, entered, ks, i, total).1.Some? <==>
              forall j :: i <= j < |ks| ==> !(ks[j] in entered && entered[ks[j]] == 0)
    decreases |ks| - i
  {
    if i < |ks| {
      var k := ks[i];
      var q := EnteredQty(cart, entered, k);
      var next := Edited(cart, k, q);
      ReviewFromStep(cart, entered, ks, i, total);
      if q != 0 {
        ReviewFromShowsIff(next, entered, ks, i + 1, total + next[k].quantity);
      }
    }
  }

  /** When the pass shows totals, every line from position `i` on holds its reviewed value. */
  lemma {:induction false} ReviewFromShown(cart: CartMap, entered: map<Key, nat>, ks: seq<Key>, i: nat, total: nat)
    requires i <= |ks|
    requires Positive(cart)
    requires Distinct(ks)
    requires forall j :: i <= j < |ks| ==> ks[j] in cart
    requires ReviewFrom(cart, entered, ks, i, total).1.Some?
    ensures ReviewFrom(cart, entered, ks, i, total).0.Keys == cart.Keys
    ensures forall j :: i <= j < |ks| ==> ReviewFrom(cart, entered, ks, i, total).0[ks[j]] == Reviewed(cart, entered)[ks[j]]
    decreases |ks| - i
  {
    if i < |ks| {
      var k := ks[i];
      var q := EnteredQty(cart, entered, k);
      var next := Edited(cart, k, q);
      ReviewFromStep(cart, entered, ks, i, total);
      ReviewedStable(cart, entered, k);
      ReviewFromShown(next, entered, ks, i + 1, total + next[k].quantity);
      ReviewFromKeeps(next, entered, ks, i + 1, total + next[k].quantity);
    }
  }

  /** When the pass shows totals, the total is the accumulated one plus the reviewed quantities. */
  lemma {:induction false} ReviewFromTotal(cart: CartMap, entered: map<Key, nat>, ks: seq<Key>, i: nat, total: nat)
    requires i <= |ks|
    requires Positive(cart)
    requires Distinct(ks)
    requires forall j :: i <= j < |ks| ==> ks[j] in cart
    requires ReviewFrom(cart, entered, ks, i, total).1.Some?
    ensures ReviewFrom(cart, entered, ks, i, total).1.value == total + SumKeys(Reviewed(cart, entered), ks[i..])
    decreases |ks| - i
  {
    if i < |ks| {
      var k := ks[i];
      var q := EnteredQty(cart, entered, k);
      var next := Edited(cart, k, q);
      ReviewFromStep(cart, entered, ks, i, total);
      ReviewedStable(cart, entered, k);
      ReviewFromTotal(next, entered, ks, i + 1, total + next[k].quantity);
      assert Reviewed(cart, entered)[k] == next[k];
      assert ks[i..][1..] == ks[i + 1..];
    }
  }

  /** A line's editor holds 0. */
  predicate AsksZero(entered: map<Key, nat>, k: Key)
  {
    k in entered && entered[k] == 0
  }

  /**
   * How a pass from position `i` that stops at position `j` leaves the cart:
   * `ks[j]` is the first key from `i` on whose editor holds 0 and its line is
   * gone, the lines listed before it hold their reviewed values, and every
   * other line is as it was.
   */
  ghost predicate StoppedAt(cart: CartMap, entered: map<Key, nat>, ks: seq<Key>, i: nat, j: nat, r: CartMap)
  {
    && i <= j < |ks|
    && AsksZero(entered, ks[j])
    && (forall l :: i <= l < j ==> !AsksZero(entered, ks[l]))
    && r.Keys == cart.Keys - {ks[j]}
    && (forall l :: i <= l < j ==> ks[l] in cart && ks[l] in r && r[ks[l]] == Reviewed(cart, entered)[ks[l]])
    && (forall k :: k in r && k in cart && (forall l :: i <= l < j ==> ks[l] != k) ==> r[k] == cart[k])
  }

  /** A removal at the current position stops the pass there. */
  lemma StoppedHere(cart: CartMap, entered: map<Key, nat>, ks: seq<Key>, i: nat)
    requires Positive(cart)
    requires i < |ks| && ks[i] in cart
    requires EnteredQty(cart, entered, ks[i]) == 0
    ensures StoppedAt(cart, entered, ks, i, i, cart - {ks[i]})
  {
  }

  /** A stop after one non-removing editor is a stop of the pass from that editor on. */
  lemma StoppedLater(cart: CartMap, entered: map<Key, nat>, ks: seq<Key>, i: nat, j: nat, r: CartMap)
    requires Positive(cart)
    requires i < |ks| && Distinct(ks)
    requires forall l :: i <= l < |ks| ==> ks[l] in cart
    requires EnteredQty(cart, entered, ks[i]) != 0
    requires StoppedAt(Edited(cart, ks[i], EnteredQty(cart, entered, ks[i])), entered, ks, i + 1, j, r)
    ensures StoppedAt(cart, entered, ks, i, j, r)
  {
    var k := ks[i];
    var next := Edited(cart, k, EnteredQty(cart, entered, k));
    ReviewedStable(cart, entered, k);
    assert !AsksZero(entered, k);
    assert next.Keys == cart.Keys;
    forall l | i <= l < j
      ensures ks[l] in cart && ks[l] in r && r[ks[l]] == Reviewed(cart, entered)[ks[l]]
    {
      if l == i {
        assert forall m :: i + 1 <= m < j ==> ks[m] != k;
        assert r[k] == next[k];
      } else {
        assert r[ks[l]] == Reviewed(next, entered)[ks[l]];
      }
    }
    forall x | x in r && x in cart && (forall l :: i <= l < j ==> ks[l] != x)
      ensures r[x] == cart[x]
    {
      assert ks[i] != x;
      assert r[x] == next[x];
    }
  }

  /**
   * When the pass stops for a removal, it stopped at the first listed line
   * whose editor holds 0, in the state `StoppedAt` describes.
   */
  lemma {:induction false} ReviewFromRemoved(cart: CartMap, entered: map<Key, nat>, ks: seq<Key>, i: nat, total: nat)
      returns (j: nat)
    requires i <= |ks|
    requires Positive(cart)
    requires Distinct(ks)
    requires forall l :: i <= l < |ks| ==> ks[l] in cart
    requires ReviewFrom(cart, entered, ks, i, total).1.None?
    ensures StoppedAt(cart, entered, ks, i, j, ReviewFrom(cart, entered, ks, i, total).0)
    decreases |ks| - i
  {
    var k := ks[i];
    var q := EnteredQty(cart, entered, k);
    ReviewFromStep(cart, entered, ks, i, total);
    if q == 0 {
      j := i;
      StoppedHere(cart, entered, ks, i);
    } else {
      var next := Edited(cart, k, q);
      j := ReviewFromRemoved(next, entered, ks, i + 1, total + next[k].quantity);
      StoppedLater(cart, entered, ks, i, j, ReviewFrom(next, entered, ks, i + 1, total + next[k].quantity).0);
    }
  }

  /** The four facts above, for a whole pass started with total 0. */
  lemma ReviewFacts(cart: CartMap, entered: map<Key, nat>, ks: seq<Key>)
    requires Positive(cart)
    requires Distinct(ks)
    requires forall j :: 0 <= j < |ks| ==> ks[j] in cart
    ensures Positive(ReviewFrom(cart, entered, ks, 0, 0).0)
    ensures forall k :: k in ReviewFrom(cart, entered, ks, 0, 0).0 ==>
              k in cart && (ReviewFrom(cart, entered, ks, 0, 0).0[k] == cart[k] ||
                            ReviewFrom(cart, entered, ks, 0, 0).0[k] == Reviewed(cart, entered)[k])
    ensures ReviewFrom(cart, entered, ks, 0, 0).1.Some? <==>
              forall j :: 0 <= j < |ks| ==> !(ks[j] in entered && entered[ks[j]] == 0)
    ensures ReviewFrom(cart, entered, ks, 0, 0).1.Some? ==>
              && ReviewFrom(cart, entered, ks, 0, 0).0.Keys == cart.Keys
              && (forall j :: 0 <= j < |ks| ==> ReviewFrom(cart, entered, ks, 0, 0).0[ks[j]] == Reviewed(cart, entered)[ks[j]])
              && ReviewFrom(cart, entered, ks, 0, 0).1.value == SumKeys(Reviewed(cart, entered), ks)
    ensures ReviewFrom(cart, entered, ks, 0, 0).1.None? ==>
              exists j :: StoppedAt(cart, entered, ks, 0, j, ReviewFrom(cart, entered, ks, 0, 0).0)
  {
    ReviewFromKeeps(cart, entered, ks, 0, 0);
    ReviewFromShowsIff(cart, entered, ks, 0, 0);
    if ReviewFrom(cart, entered, ks, 0, 0).1.Some? {
      ReviewFromShown(cart, entered, ks, 0, 0);
      ReviewFromTotal(cart, entered, ks, 0, 0);
      assert ks[0..] == ks;
    } else {
      var j := ReviewFromRemoved(cart, entered, ks, 0, 0);
    }
  }

  lemma SameOnListing(a: CartMap, b: CartMap, ks: seq<Key>)
    requires a.Keys == b.Keys
    requires forall k :: k in a ==> k in ks
    requires forall j :: 0 <= j < |ks| ==> ks[j] in a && a[ks[j]] == b[ks[j]]
    ensures a == b
  {
    forall k | k in a
      ensures a[k] == b[k]
    {
      var j :| 0 <= j < |ks| && ks[j] == k;
    }
  }

  lemma NoRemovalAsked(cart: CartMap, entered: map<Key, nat>, ks: seq<Key>)
    requires forall k :: k in cart ==> k in ks
    requires forall j :: 0 <= j < |ks| ==> !(ks[j] in entered && entered[ks[j]] == 0)
    ensures !AsksRemoval(cart, entered)
  {
    forall k | k in cart
      ensures !(k in entered && entered[k] == 0)
    {
      var j :| 0 <= j < |ks| && ks[j] == k;
    }
  }

  /**
   * A pass over the whole listing that reaches the totals leaves the reviewed
   * cart, and the total it accumulated is that cart's total quantity.
   */
  lemma SummaryShown(cart: CartMap, entered: map<Key, nat>, ks: seq<Key>, after: CartMap, total: nat)
    requires Positive(cart) && Distinct(ks)
    requires forall k :: k in cart <==> k in ks
    requires ReviewFrom(cart, entered, ks, 0, 0) == (after, Some(total))
    ensures !AsksRemoval(cart, entered)
    ensures after == Reviewed(cart, entered)
    ensures total == SumQty(after)
  {
    ReviewFromShowsIff(cart, entered, ks, 0, 0);
    ReviewFromShown(cart, entered, ks, 0, 0);
    ReviewFromTotal(cart, entered, ks, 0, 0);
    assert ks[0..] == ks;
    NoRemovalAsked(cart, entered, ks);
    SameOnListing(after, Reviewed(cart, entered), ks);
    SumKeysAll(Reviewed(cart, entered), ks);
  }

  /** A pass over the whole listing that stops has removed one line whose editor holds 0. */
  lemma SummaryRestarted(cart: CartMap, entered: map<Key, nat>, ks: seq<Key>, after: CartMap)
    requires Positive(cart) && Distinct(ks)
    requires forall k :: k in cart <==> k in ks
    requires ReviewFrom(cart, entered, ks, 0, 0).1.None? && ReviewFrom(cart, entered, ks, 0, 0).0 == after
    ensures AsksRemoval(cart, entered)
    ensures exists j :: StoppedAt(cart, entered, ks, 0, j, after)
    ensures exists k :: k in cart && k in entered && entered[k] == 0 && after.Keys == cart.Keys - {k}
  {
    var j := ReviewFromRemoved(cart, entered, ks, 0, 0);
    assert ks[j] in cart;
  }

  /** The mutable session state holding the cart. */
  class Cart {
    var lines: CartMap

    ghost predicate Valid()
      reads this
    {
      Positive(lines)
    }

    /** A new session starts with an empty cart. */
    constructor ()
      ensures Valid() && lines == map[]
    {
      lines := map[];
    }

    /**
     * "Add Selected Items": walks the parts list, merging every positive
     * quantity into the cart, and reports how many parts were added.
     */
    method BulkAdd(sels: seq<Selection>) returns (added: nat)
      requires Valid()
      modifies this
      ensures Valid()
      ensures lines == AddAll(old(lines), sels)
      ensures added == CountAdded(sels)
    {
      added := 0;
      var i := 0;
      while i < |sels|
        invariant 0 <= i <= |sels|
        invariant lines == AddAll(old(lines), sels[..i])
        invariant added == CountAdded(sels[..i])
      {
        var sel := sels[i];
        AddAllNext(old(lines), sels, i);
        if sel.quantity > 0 {
          var key := Key(sel.machine, sel.code);
          if key in lines {
            lines := lines[key := Line(lines[key].description, lines[key].quantity + sel.quantity)];
          } else {
            lines := lines[key := Line(sel.description, sel.quantity)];
          }
          added := added + 1;
        }
        i := i + 1;
      }
      assert sels[..i] == sels;
      AddAllPositive(old(lines), sels);
    }

    /** One line's quantity editor in the order summary. */
    method Edit(key: Key, newQty: nat)
      requires Valid() && key in lines
      modifies this
      ensures Valid()
      ensures lines == Edited(old(lines), key, newQty)
    {
      if newQty != lines[key].quantity {
        if newQty == 0 {
          lines := lines - {key};
        } else {
          lines := lines[key := Line(lines[key].description, newQty)];
        }
      }
      EditedTotals(old(lines), key, newQty);
    }

    /**
     * The order summary: an empty cart shows only a notice. Otherwise the
     * lines are walked in key order, each line's editor is applied
     * (`entered` holds the editors whose value the user changed; the others
     * show the current quantity) and the total quantity is accumulated. A
     * removal restarts the page at once, so no totals are shown; otherwise
     * the totals shown are those of the edited cart.
     */
    method Summarize(entered: map<Key, nat>) returns (shown: Summary)
      requires Valid()
      modifies this
      ensures Valid()
      ensures shown.EmptyCart? <==> old(lines) == map[]
      ensures shown.EmptyCart? ==> lines == old(lines)
      ensures shown.Shown? <==> old(lines) != map[] && !AsksRemoval(old(lines), entered)
      ensures shown.Shown? ==> lines == Reviewed(old(lines), entered)
      ensures shown.Shown? ==> shown.totals == Totals(|lines|, SumQty(lines))
      ensures shown.Restarted? ==> exists k :: k in old(lines) && k in entered && entered[k] == 0 &&
                                            lines.Keys == old(lines).Keys - {k}
      ensures shown.Restarted? ==> exists j :: StoppedAt(old(lines), entered, SortedKeys(old(lines).Keys), 0, j, lines)
      ensures forall k :: k in lines ==> lines[k] == old(lines)[k] || lines[k] == Reviewed(old(lines), entered)[k]
    {
      if lines == map[] {
        return EmptyCart;
      }
      ghost var start := lines;
      var ks := SortedKeys(lines.Keys);
      SortedKeysDistinct(lines.Keys);
      var total := Review(ks, entered);
      ReviewFromKeeps(start, entered, ks, 0, 0);
      if total.Some? {
        SummaryShown(start, entered, ks, lines, total.value);
        shown := Shown(Totals(|lines|, total.value));
      } else {
        SummaryRestarted(start, entered, ks, lines);
        shown := Restarted;
      }
    }

    /**
     * The loop of the order summary over the listed keys: applies each line's
     * editor and accumulates the total quantity, stopping at a removal.
     */
    method Review(ks: seq<Key>, entered: map<Key, nat>) returns (total: Option<nat>)
      requires Valid()
      requires Distinct(ks)
      requires forall j :: 0 <= j < |ks| ==> ks[j] in lines
      modifies this
      ensures Valid()
      ensures (lines, total) == ReviewFrom(old(lines), entered, ks, 0, 0)
    {
      ghost var pass := ReviewFrom(lines, entered, ks, 0, 0);
      var sum: nat := 0;
      var i := 0;
      while i < |ks|
        invariant 0 <= i <= |ks|
        invariant Valid()
        invariant forall j :: i <= j < |ks| ==> ks[j] in lines
        invariant ReviewFrom(lines, entered, ks, i, sum) == pass
      {
        var key := ks[i];
        var q := if key in entered then entered[key] else lines[key].quantity;
        ReviewFromStep(lines, entered, ks, i, sum);
        Edit(key, q);
        if q == 0 {
          return None;
        }
        sum := sum + lines[key].quantity;
        i := i + 1;
      }
      total := Some(sum);
    }

    /** "Empty cart": every line is removed, so both totals become 0. */
    method Clear()
      modifies this
      ensures Valid()
      ensures lines == map[]
      ensures |lines| == 0 && SumQty(lines) == 0
    {
      lines := map[];
    }
  }
}

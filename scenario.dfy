/**
 * A two-machine example order: a Drone 20-20 reactor and an MM 30-50
 * valve.
 */
module Scenario {
  import opened Keys
  import opened Orders
  import opened Pdf

  const DroneReactor: Key := Key("Drone 20-20", "VTR01VT005")
  const MmValve: Key := Key("MM 30-50", "PFO02XX003")

  function ExampleCart(): CartMap
  {
    map[MmValve := Line("Valve", 5), DroneReactor := Line("20lt Glass Reactor", 2)]
  }

  /** The Drone 20-20 machine sorts before the MM 30-50 machine. */
  lemma ExampleKeys()
    ensures SortedKeys(ExampleCart().Keys) == [DroneReactor, MmValve]
  {
    assert StrLt(DroneReactor.machine, MmValve.machine) by {
      assert DroneReactor.machine[0] == 'D' && MmValve.machine[0] == 'M';
    }
    assert StrictlySorted([DroneReactor, MmValve]);
    SortedKeysCanonical(ExampleCart().Keys, [DroneReactor, MmValve]);
  }

  /** The cart is listed Drone first, whatever order the lines were added in. */
  lemma ExampleListing()
    ensures SortedItems(ExampleCart()) == [(DroneReactor, Line("20lt Glass Reactor", 2)), (MmValve, Line("Valve", 5))]
  {
    ExampleKeys();
    var r := SortedItems(ExampleCart());
    assert r[0].0 == DroneReactor && r[1].0 == MmValve;
  }

  /** The printed rows of the example lines. */
  lemma ExampleEntries()
    ensures EntryFor((DroneReactor, Line("20lt Glass Reactor", 2))) == Entry("VTR01VT005", "20lt Glass Reactor", "2")
    ensures EntryFor((MmValve, Line("Valve", 5))) == Entry("PFO02XX003", "Valve", "5")
  {
    assert NatToDecimal(2) == "2" && NatToDecimal(5) == "5";
  }

  /**
   * The document has the Drone 20-20 block with its one row, then the
   * MM 30-50 block with its one row.
   */
  lemma ExampleDocument(height: int)
    ensures Outline(Layout(ExampleCart(), height)) ==
              [Heading("Drone 20-20"), Entry("VTR01VT005", "20lt Glass Reactor", "2"),
               Heading("MM 30-50"), Entry("PFO02XX003", "Valve", "5")]
  {
    ExampleListing();
    LayoutContent(ExampleCart(), height);
    ExampleEntries();
    var items := [(DroneReactor, Line("20lt Glass Reactor", 2)), (MmValve, Line("Valve", 5))];
    assert NewMachine(items, 1);
    assert Expected(items, 2) == [];
    assert Expected(items, 1) == [Heading("MM 30-50"), Entry("PFO02XX003", "Valve", "5")];
  }

  /** The order summary of the example shows 2 lines and 7 parts. */
  lemma ExampleTotals()
    ensures |ExampleCart()| == 2 && SumQty(ExampleCart()) == 7
  {
    var cart := ExampleCart();
    SumRemove(cart, DroneReactor);
    var rest := cart - {DroneReactor};
    assert rest == map[MmValve := Line("Valve", 5)];
    SumRemove(rest, MmValve);
    assert rest - {MmValve} == map[];
    assert cart.Keys == {DroneReactor, MmValve};
  }
}

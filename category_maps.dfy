/** The five constant label-to-code tables of the price-prediction tab, and
    what makes a table a well-formed category map: distinct labels whose codes
    are exactly their positions 0 .. n-1. */
module CategoryMaps {
  import opened Dicts

  type Table = seq<Entry<int>>

  const LocationMapping: Table := [
    Entry("Ahmedabad", 0), Entry("Bangalore", 1), Entry("Chennai", 2), Entry("Coimbatore", 3),
    Entry("Delhi", 4), Entry("Hyderabad", 5), Entry("Jaipur", 6), Entry("Kochi", 7),
    Entry("Kolkata", 8), Entry("Mumbai", 9), Entry("Pune", 10)
  ]

  const FuelTypeMapping: Table := [
    Entry("CNG", 0), Entry("Diesel", 1), Entry("Electric", 2), Entry("LPG", 3), Entry("Petrol", 4)
  ]

  const TransmissionMapping: Table := [
    Entry("Automatic", 0), Entry("Manual", 1)
  ]

  const OwnerTypeMapping: Table := [
    Entry("First", 0), Entry("Fourth & Above", 1), Entry("Second", 2), Entry("Third", 3)
  ]

  const BrandMapping: Table := [
    Entry("Ambassador", 0), Entry("Audi", 1), Entry("BMW", 2), Entry("Bentley", 3), Entry("Chevrolet", 4),
    Entry("Datsun", 5), Entry("Fiat", 6), Entry("Force", 7), Entry("Ford", 8), Entry("Hindustan", 9),
    Entry("Honda", 10), Entry("Hyundai", 11), Entry("ISUZU", 12), Entry("Isuzu", 13), Entry("Jaguar", 14),
    Entry("Jeep", 15), Entry("Lamborghini", 16), Entry("Land", 17), Entry("Mahindra", 18), Entry("Maruti", 19),
    Entry("Mercedes-Benz", 20), Entry("Mini", 21), Entry("Mitsubishi", 22), Entry("Nissan", 23),
    Entry("OpelCorsa", 24), Entry("Porsche", 25), Entry("Renault", 26), Entry("Skoda", 27), Entry("Smart", 28),
    Entry("Tata", 29), Entry("Toyota", 30), Entry("Volkswagen", 31), Entry("Volvo", 32)
  ]

  /** Every code is the position of its label. */
  ghost predicate CodesArePositions(t: Table) {
    forall i :: 0 <= i < |t| ==> t[i].value == i
  }

  /** A well-formed category map of n labels. */
  ghost predicate ValidTable(t: Table, n: nat) {
    |t| == n && DistinctKeys(t) && CodesArePositions(t)
  }

  lemma LocationMappingValid()
    ensures ValidTable(LocationMapping, 11)
  {
    forall i | 0 <= i < |LocationMapping|
      ensures forall j :: i < j < |LocationMapping| ==> LocationMapping[i].key != LocationMapping[j].key
    {
      if i == 0 {} else if i == 1 {} else if i == 2 {} else if i == 3 {} else if i == 4 {}
      else if i == 5 {} else if i == 6 {} else if i == 7 {} else if i == 8 {} else if i == 9 {}
    }
  }

  lemma FuelTypeMappingValid()
    ensures ValidTable(FuelTypeMapping, 5)
  {
  }

  lemma TransmissionMappingValid()
    ensures ValidTable(TransmissionMapping, 2)
  {
  }

  lemma OwnerTypeMappingValid()
    ensures ValidTable(OwnerTypeMapping, 4)
  {
  }

  lemma BrandMappingValid()
    ensures ValidTable(BrandMapping, 33)
  {
    forall i | 0 <= i < |BrandMapping|
      ensures forall j :: i < j < |BrandMapping| ==> BrandMapping[i].key != BrandMapping[j].key
    {
      if i < 8 {
        BrandRowsDistinct0(i);
      } else if i < 16 {
        BrandRowsDistinct8(i);
      } else {
        BrandRowsDistinct16(i);
      }
    }
  }

  // The 33 brand labels are compared a few rows at a time: row i against
  // every later row.

  lemma BrandRowsDistinct0(i: nat)
    requires i < 8
    ensures forall j :: i < j < |BrandMapping| ==> BrandMapping[i].key != BrandMapping[j].key
  {
    if i == 0 {} else if i == 1 {} else if i == 2 {} else if i == 3 {}
    else if i == 4 {} else if i == 5 {} else if i == 6 {}
  }

  lemma BrandRowsDistinct8(i: nat)
    requires 8 <= i < 16
    ensures forall j :: i < j < |BrandMapping| ==> BrandMapping[i].key != BrandMapping[j].key
  {
    if i == 8 {} else if i == 9 {} else if i == 10 {} else if i == 11 {}
    else if i == 12 {} else if i == 13 {} else if i == 14 {}
  }

  lemma BrandRowsDistinct16(i: nat)
    requires 16 <= i < |BrandMapping|
    ensures forall j :: i < j < |BrandMapping| ==> BrandMapping[i].key != BrandMapping[j].key
  {
    if i == 16 {} else if i == 17 {} else if i == 18 {} else if i == 19 {} else if i == 20 {}
    else if i == 21 {} else if i == 22 {} else if i == 23 {} else if i == 24 {} else if i == 25 {}
    else if i == 26 {} else if i == 27 {} else if i == 28 {} else if i == 29 {} else if i == 30 {}
    else if i == 31 {}
  }

  /** A table is injective: two labels that encode to the same code are the
      same label. */
  lemma {:induction false} CodesInjective(t: Table, n: nat, a: string, b: string)
    requires ValidTable(t, n)
    ensures Lookup(t, a).Some? && Lookup(t, a) == Lookup(t, b) ==> a == b
  {
    if Lookup(t, a).Some? && Lookup(t, a) == Lookup(t, b) {
      var i :| 0 <= i < |t| && t[i] == Entry(a, Lookup(t, a).value);
      var j :| 0 <= j < |t| && t[j] == Entry(b, Lookup(t, b).value);
      assert i == t[i].value == t[j].value == j;
    }
  }

  /** A table's codes are dense in 0 .. n-1: every code in range is the code of
      some label, and every label's code is in range. */
  lemma {:induction false} CodesDense(t: Table, n: nat, code: int, name: string)
    requires ValidTable(t, n)
    ensures 0 <= code < n ==> Lookup(t, t[code].key) == Some(code)
    ensures Lookup(t, name).Some? ==> 0 <= Lookup(t, name).value < n
  {
    if 0 <= code < n {
      LookupAt(t, code);
    }
  }

  /** The label whose code is `code`, searched by value: the inverse of a
      table. */
  function CodeOwner(t: Table, code: int): (r: Option<string>)
    ensures r.Some? ==> exists i :: 0 <= i < |t| && t[i] == Entry(r.value, code)
  {
    if |t| == 0 then None
    else if t[|t| - 1].value == code then Some(t[|t| - 1].key)
    else CodeOwner(t[..|t| - 1], code)
  }

  /** When codes are positions, the owner of code i is the i-th label. */
  lemma {:induction false} CodeOwnerAt(t: Table, i: nat)
    requires CodesArePositions(t) && i < |t|
    ensures CodeOwner(t, i) == Some(t[i].key)
  {
    if i < |t| - 1 {
      var t' := t[..|t| - 1];
      assert t'[i] == t[i];
      assert CodesArePositions(t');
      CodeOwnerAt(t', i);
    }
  }

  /** Decoding a label's code gives the label back. */
  lemma CodeOwnerOfLookup(t: Table, name: string)
    requires CodesArePositions(t) && Lookup(t, name).Some?
    ensures CodeOwner(t, Lookup(t, name).value) == Some(name)
  {
    var i :| 0 <= i < |t| && t[i] == Entry(name, Lookup(t, name).value);
    CodeOwnerAt(t, i);
  }
}

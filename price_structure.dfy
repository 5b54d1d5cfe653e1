/**
 * Decoding of a PRICSTRUCT row into the per-column map that tells the engine
 * how each DCGVAL column of a pricing line is to be read
 * (`get_price_structure` in src/pricing/service.py, without its cache, which
 * lives on the engine object in module PricingEngine).
 */
module PriceStructure {
  import opened Wrappers
  import opened PricingModel

  /** A column counts as configured only when none of its three flags is '0'. */
  predicate Configured(c: ColumnFlags) {
    c.incdcr != "0" && c.valtyp != "0" && c.clcrul != "0"
  }

  /** `SELECT * FROM PRICSTRUCT WHERE PLISTC_0 = ?` followed by `fetchone()`:
      the first row with that code, if any. */
  function FindStructureRow(table: seq<StructureRow>, code: string): (r: Option<StructureRow>)
    ensures r.None? <==> forall k :: 0 <= k < |table| ==> table[k].code != code
    ensures r.Some? ==> r.value in table && r.value.code == code
  {
    if table == [] then None
    else if table[0].code == code then Some(table[0])
    else
      assert forall k :: 1 <= k < |table| ==> table[k] == table[1..][k - 1];
      FindStructureRow(table[1..], code)
  }

  /** The row found is the first one carrying the code. */
  lemma {:induction false} FindStructureRowFirst(table: seq<StructureRow>, code: string, k: nat)
    requires k < |table| && table[k].code == code
    requires forall j :: 0 <= j < k ==> table[j].code != code
    ensures FindStructureRow(table, code) == Some(table[k])
  {
    if k > 0 {
      FindStructureRowFirst(table[1..], code, k - 1);
    }
  }

  /** The structure map of a (possibly missing) row: the configured columns
      among 0..8, each with its flags. */
  function StructureOf(row: Option<StructureRow>): (m: StructureMap)
  {
    match row
    case None => map[]
    case Some(r) => map i | 0 <= i < 9 && Configured(r.columns[i]) :: r.columns[i]
  }

  /** What `get_price_structure` computes for a code on a cache miss. */
  function StructureFor(table: seq<StructureRow>, code: string): StructureMap {
    StructureOf(FindStructureRow(table, code))
  }

  /** A code with no PRICSTRUCT row decodes to the empty map; otherwise column
      i is present exactly when it is configured, with the row's flags. */
  lemma StructureForShape(table: seq<StructureRow>, code: string)
    ensures (forall k :: 0 <= k < |table| ==> table[k].code != code) ==> StructureFor(table, code) == map[]
    ensures forall i :: i in StructureFor(table, code) ==> 0 <= i < 9
    ensures forall i :: 0 <= i < 9 ==>
      (i in StructureFor(table, code) <==>
         (FindStructureRow(table, code).Some? && Configured(FindStructureRow(table, code).value.columns[i])))
    ensures forall i :: i in StructureFor(table, code) ==>
      StructureFor(table, code)[i] == FindStructureRow(table, code).value.columns[i]
  {
  }

  /** The `for i in range(9)` loop of `get_price_structure` over one row. */
  method DecodeStructureRow(row: StructureRow) returns (m: StructureMap)
    ensures m == StructureOf(Some(row))
    ensures forall i :: i in m <==> 0 <= i < 9 && Configured(row.columns[i])
    ensures forall i :: i in m ==> m[i] == row.columns[i]
  {
    m := map[];
    for i := 0 to 9
      invariant forall j :: j in m <==> 0 <= j < i && Configured(row.columns[j])
      invariant forall j :: j in m ==> m[j] == row.columns[j]
    {
      var c := row.columns[i];
      if c.incdcr != "0" && c.valtyp != "0" && c.clcrul != "0" {
        m := m[i := c];
      }
    }
  }
}

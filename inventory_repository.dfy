/** The inventory ledger: one record per (outlet, donut type) holding a
    stock quantity and a cost basis, read and written by read-modify-write
    operations. */
module Inventory {
  import opened Wrappers

  datatype InventoryRecord = InventoryRecord(quantity: int, costBasis: int)

  /** A record as `getAllInventory` reports it. */
  datatype InventoryEntry = InventoryEntry(outletId: string, donutTypeId: string, quantity: int, costBasis: int)

  /** One answer document of a per-outlet inventory query; a field the
      database did not return is `None`. */
  datatype OutletRow = OutletRow(donutTypeId: Option<string>, quantity: Option<int>)

  /** One answer document of the all-inventory query. */
  datatype InventoryRow = InventoryRow(outletId: string, donutTypeId: string,
                                       quantity: Option<int>, costBasis: Option<int>)

  type Records = map<(string, string), InventoryRecord>

  /** The stock `getInventory` reports: the stored quantity, or 0 when
      there is no record. */
  function Quantity(records: Records, outletId: string, donutTypeId: string): (q: int)
    ensures (outletId, donutTypeId) !in records ==> q == 0
    ensures (outletId, donutTypeId) in records ==> q == records[(outletId, donutTypeId)].quantity
  {
    if (outletId, donutTypeId) in records then records[(outletId, donutTypeId)].quantity else 0
  }

  /** The records after `setInventory(outletId, donutTypeId, quantity,
      costBasis)`: an existing record gets the new quantity and keeps its
      cost basis; a missing one is inserted only if the outlet exists (the
      insert matches the outlet first); nothing else changes. */
  function WithInventory(records: Records, outlets: set<string>, outletId: string, donutTypeId: string,
                         quantity: int, costBasis: int): (r: Records)
    ensures forall k :: k in records && k != (outletId, donutTypeId) ==> k in r && r[k] == records[k]
    ensures forall k :: k in r && k != (outletId, donutTypeId) ==> k in records
    ensures (outletId, donutTypeId) in records ==>
              (outletId, donutTypeId) in r && r[(outletId, donutTypeId)] == records[(outletId, donutTypeId)].(quantity := quantity)
    ensures (outletId, donutTypeId) !in records && outletId in outlets ==>
              (outletId, donutTypeId) in r && r[(outletId, donutTypeId)] == InventoryRecord(quantity, costBasis)
    ensures (outletId, donutTypeId) !in records && outletId !in outlets ==> r == records
  {
    var key := (outletId, donutTypeId);
    if key in records then records[key := records[key].(quantity := quantity)]
    else if outletId in outlets then records[key := InventoryRecord(quantity, costBasis)]
    else records
  }

  /** Every stored quantity is non-negative. */
  predicate NonNegative(records: Records) {
    forall k :: k in records ==> records[k].quantity >= 0
  }

  /** A set with a non-negative quantity keeps the ledger non-negative. */
  lemma WithInventoryKeepsNonNegative(records: Records, outlets: set<string>, outletId: string,
                                      donutTypeId: string, quantity: int, costBasis: int)
    requires NonNegative(records) && quantity >= 0
    ensures NonNegative(WithInventory(records, outlets, outletId, donutTypeId, quantity, costBasis))
  {
    var r := WithInventory(records, outlets, outletId, donutTypeId, quantity, costBasis);
    forall k | k in r
      ensures r[k].quantity >= 0
    {
      if k != (outletId, donutTypeId) {
        assert r[k] == records[k];
      }
    }
  }

  /** A removal that the stock covers never makes a quantity negative. */
  lemma RemovalKeepsNonNegative(records: Records, outlets: set<string>, outletId: string,
                                donutTypeId: string, quantity: int)
    requires NonNegative(records) && Quantity(records, outletId, donutTypeId) >= quantity
    ensures NonNegative(WithInventory(records, outlets, outletId, donutTypeId,
                                      Quantity(records, outletId, donutTypeId) - quantity, 0))
  {
    WithInventoryKeepsNonNegative(records, outlets, outletId, donutTypeId,
                                  Quantity(records, outletId, donutTypeId) - quantity, 0);
  }

  /** After a set that stores a record, reading it back gives the quantity
      just set. */
  lemma SetThenGet(records: Records, outlets: set<string>, outletId: string, donutTypeId: string,
                   quantity: int, costBasis: int)
    requires (outletId, donutTypeId) in records || outletId in outlets
    ensures Quantity(WithInventory(records, outlets, outletId, donutTypeId, quantity, costBasis),
                     outletId, donutTypeId) == quantity
  {
  }

  /** Whether a per-outlet row counts: a non-empty donut type id (the empty
      string is falsy) and a quantity. */
  predicate UsableRow(row: OutletRow) {
    row.donutTypeId.Some? && row.donutTypeId.value != "" && row.quantity.Some?
  }

  /** The map built from the rows, a later row for the same type replacing
      an earlier one. */
  function RowsToMap(rows: seq<OutletRow>): map<string, int>
    decreases |rows|
  {
    if |rows| == 0 then map[]
    else
      var prefix := RowsToMap(rows[..|rows| - 1]);
      var row := rows[|rows| - 1];
      if UsableRow(row) then prefix[row.donutTypeId.value := row.quantity.value] else prefix
  }

  /** A type is in the map exactly when some usable row names it, and its
      quantity is that of the last such row. */
  lemma {:induction false} RowsToMapMeaning(rows: seq<OutletRow>, t: string)
    ensures t in RowsToMap(rows) <==> exists i :: 0 <= i < |rows| && UsableRow(rows[i]) && rows[i].donutTypeId.value == t
    ensures t in RowsToMap(rows) ==>
              exists i :: && 0 <= i < |rows| && UsableRow(rows[i]) && rows[i].donutTypeId.value == t
                          && RowsToMap(rows)[t] == rows[i].quantity.value
                          && forall j :: i < j < |rows| ==> !(UsableRow(rows[j]) && rows[j].donutTypeId.value == t)
    decreases |rows|
  {
    if |rows| > 0 {
      var prefix := rows[..|rows| - 1];
      var n := |rows| - 1;
      RowsToMapMeaning(prefix, t);
      if UsableRow(rows[n]) && rows[n].donutTypeId.value == t {
        assert RowsToMap(rows)[t] == rows[n].quantity.value;
      } else {
        if t in RowsToMap(prefix) {
          var i :| && 0 <= i < |prefix| && UsableRow(prefix[i]) && prefix[i].donutTypeId.value == t
                   && RowsToMap(prefix)[t] == prefix[i].quantity.value
                   && forall j :: i < j < |prefix| ==> !(UsableRow(prefix[j]) && prefix[j].donutTypeId.value == t);
          assert rows[i] == prefix[i];
          forall j | i < j < |rows|
            ensures !(UsableRow(rows[j]) && rows[j].donutTypeId.value == t)
          {
            if j < n { assert rows[j] == prefix[j]; }
          }
        }
        if exists i :: 0 <= i < |rows| && UsableRow(rows[i]) && rows[i].donutTypeId.value == t {
          var i :| 0 <= i < |rows| && UsableRow(rows[i]) && rows[i].donutTypeId.value == t;
          assert i < n;
          assert prefix[i] == rows[i];
        }
      }
    }
  }

  /** The record `getAllInventory` reports for a row: a missing quantity or
      cost basis reads as 0. */
  function EntryOf(row: InventoryRow): InventoryEntry {
    InventoryEntry(row.outletId, row.donutTypeId,
                   if row.quantity.Some? then row.quantity.value else 0,
                   if row.costBasis.Some? then row.costBasis.value else 0)
  }

  class InventoryRepository {
    /** The outlets the database holds. */
    var outlets: set<string>
    var records: Records

    constructor (outlets: set<string>)
      ensures this.outlets == outlets && records == map[]
    {
      this.outlets := outlets;
      records := map[];
    }

    function GetInventory(outletId: string, donutTypeId: string): (q: int)
      reads this
      ensures (outletId, donutTypeId) !in records ==> q == 0
      ensures (outletId, donutTypeId) in records ==> q == records[(outletId, donutTypeId)].quantity
    {
      Quantity(records, outletId, donutTypeId)
    }

    /** `setInventory`: checks the current stock and whether a record exists,
        then updates it (keeping its cost basis) or inserts one. */
    method SetInventory(outletId: string, donutTypeId: string, quantity: int, costBasis: int := 0)
      modifies this`records
      ensures records == WithInventory(old(records), outlets, outletId, donutTypeId, quantity, costBasis)
    {
      var existingQty := GetInventory(outletId, donutTypeId);
      var key := (outletId, donutTypeId);
      if existingQty > 0 || key in records {
        records := records[key := records[key].(quantity := quantity)];
      } else if outletId in outlets {
        records := records[key := InventoryRecord(quantity, costBasis)];
      }
    }

    /** `addInventory`: the stock becomes the previous stock plus
        `quantity`, unless there is neither a record nor the outlet. */
    method AddInventory(outletId: string, donutTypeId: string, quantity: int, costBasis: int := 0)
      modifies this`records
      ensures records == WithInventory(old(records), outlets, outletId, donutTypeId,
                                       Quantity(old(records), outletId, donutTypeId) + quantity, costBasis)
      ensures (outletId, donutTypeId) in old(records) || outletId in outlets ==>
                GetInventory(outletId, donutTypeId) == Quantity(old(records), outletId, donutTypeId) + quantity
    {
      var currentQty := GetInventory(outletId, donutTypeId);
      SetInventory(outletId, donutTypeId, currentQty + quantity, costBasis);
    }

    /** `removeInventory`: refuses, changing nothing, when the stock is less
        than `quantity`; otherwise stores the difference. */
    method RemoveInventory(outletId: string, donutTypeId: string, quantity: int) returns (ok: bool)
      modifies this`records
      ensures ok <==> Quantity(old(records), outletId, donutTypeId) >= quantity
      ensures !ok ==> records == old(records)
      ensures ok ==> records == WithInventory(old(records), outlets, outletId, donutTypeId,
                                              Quantity(old(records), outletId, donutTypeId) - quantity, 0)
    {
      var currentQty := GetInventory(outletId, donutTypeId);
      if currentQty < quantity {
        return false;
      }
      SetInventory(outletId, donutTypeId, currentQty - quantity);
      return true;
    }

    /** `getAllInventoryForOutlet`, over the rows the query returns;
        `None` stands for a failed query, which yields an empty map. */
    method GetAllInventoryForOutlet(rows: Option<seq<OutletRow>>) returns (result: map<string, int>)
      ensures rows.None? ==> result == map[]
      ensures rows.Some? ==> result == RowsToMap(rows.value)
    {
      result := map[];
      if rows.None? {
        return;
      }
      var docs := rows.value;
      var i := 0;
      while i < |docs|
        invariant 0 <= i <= |docs|
        invariant result == RowsToMap(docs[..i])
      {
        var doc := docs[i];
        if doc.donutTypeId.Some? && doc.donutTypeId.value != "" && doc.quantity.Some? {
          result := result[doc.donutTypeId.value := doc.quantity.value];
        }
        assert docs[..i + 1][..i] == docs[..i];
        i := i + 1;
      }
      assert docs[..i] == docs;
    }

    /** `getAllInventory`, over the rows the query returns: one entry per
        row, in row order. */
    method GetAllInventory(rows: Option<seq<InventoryRow>>) returns (results: seq<InventoryEntry>)
      ensures rows.None? ==> results == []
      ensures rows.Some? ==> |results| == |rows.value|
      ensures rows.Some? ==> forall i :: 0 <= i < |results| ==> results[i] == EntryOf(rows.value[i])
    {
      results := [];
      if rows.None? {
        return;
      }
      var docs := rows.value;
      var i := 0;
      while i < |docs|
        invariant 0 <= i <= |docs|
        invariant |results| == i
        invariant forall j :: 0 <= j < i ==> results[j] == EntryOf(docs[j])
      {
        var doc := docs[i];
        results := results + [InventoryEntry(doc.outletId, doc.donutTypeId,
                                             if doc.quantity.Some? then doc.quantity.value else 0,
                                             if doc.costBasis.Some? then doc.costBasis.value else 0)];
        i := i + 1;
      }
    }
  }
}

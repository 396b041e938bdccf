/**
 * StockSyncService::syncAllStock (app/Services/StockSyncService.php): the
 * stock reconciliation run. It walks the active Odoo products in order, skips
 * those without a reference or without a storefront stock, clamps the Odoo
 * quantity at zero, and only where that differs from the storefront stock
 * either simulates (dry run) or pushes the new quantity, recording one audit
 * row per differing product and tallying successes and errors.
 *
 * `RowsOf` and `CallsOf` specify the run product by product; the method
 * `SyncAllStock` is the loop, proved to produce exactly them.
 */
module StockSyncService {
  import opened Wrappers
  import opened Text
  import opened Inventory
  import OdooClient
  import PS = PrestaShopClient
  import Seqs

  /** One CSV row: Referencia, Stock Odoo, Stock PrestaShop, Stock Enviado, Estado. */
  datatype StockRow = StockRow(reference: string, odooQty: int, storeQty: int, sentQty: int, status: Status)

  /** What visiting one product produces: at most one row, and the storefront calls made. */
  datatype Visit = Visit(row: Option<StockRow>, calls: seq<PS.ApiCall>)

  /**
   * One iteration of the loop. A row is emitted exactly when the product has
   * a reference, the storefront knows its stock, and the clamped Odoo
   * quantity differs from it; only then, and only outside a dry run, is the
   * storefront written, with the clamped quantity.
   */
  function VisitProduct(sf: PS.Storefront, dryRun: bool, p: OdooClient.OdooProduct): (v: Visit)
    ensures PhpEmpty(p.defaultCode) ==> v == Visit(None, [])
    ensures v.row.Some? ==>
      && v.row.value.reference == p.defaultCode.value
      && !PhpEmpty(Some(v.row.value.reference))
      && v.row.value.odooQty == OdooClient.QtyOf(p)
      && v.row.value.sentQty == Clamp(v.row.value.odooQty)
      && v.row.value.sentQty != v.row.value.storeQty
      && (v.row.value.status == Simulated <==> dryRun)
    ensures (dryRun || v.row.None?) ==> PS.ReadOnly(v.calls)
  {
    var reference := p.defaultCode;
    var odooQty := OdooClient.QtyOf(p);
    if PhpEmpty(reference) then Visit(None, [])
    else
      var stock := PS.GetStockByReference(sf, reference.value);
      if stock.value.None? then Visit(None, stock.calls)
      else
        var sent := Clamp(odooQty);
        if sent == stock.value.value then Visit(None, stock.calls)
        else if dryRun then Visit(Some(StockRow(reference.value, odooQty, stock.value.value, sent, Simulated)), stock.calls)
        else
          var update := PS.UpdateStockByReference(sf, reference.value, sent);
          var status := if update.value then Updated else Failed;
          Visit(Some(StockRow(reference.value, odooQty, stock.value.value, sent, status)), stock.calls + update.calls)
  }

  /**
   * What one iteration asks of the storefront: the stock lookup always, and
   * the update, with the clamped quantity, only for a differing product
   * outside a dry run; the row's status is the update's outcome.
   */
  lemma VisitProductCalls(sf: PS.Storefront, dryRun: bool, p: OdooClient.OdooProduct)
    requires !PhpEmpty(p.defaultCode)
    ensures
      var v := VisitProduct(sf, dryRun, p);
      var stock := PS.GetStockByReference(sf, p.defaultCode.value);
      var sent := Clamp(OdooClient.QtyOf(p));
      var update := PS.UpdateStockByReference(sf, p.defaultCode.value, sent);
      && (v.row.Some? <==> stock.value.Some? && sent != stock.value.value)
      && (v.row.None? ==> v.calls == stock.calls)
      && (v.row.Some? ==>
            && v.row.value.storeQty == stock.value.value
            && v.row.value.status == (if dryRun then Simulated else if update.value then Updated else Failed)
            && v.calls == stock.calls + (if dryRun then [] else update.calls))
  {
  }

  function RowSeq(row: Option<StockRow>): seq<StockRow> {
    if row.Some? then [row.value] else []
  }

  /** The per-product step of a run: `VisitProduct` with the storefront and mode fixed. */
  function Visitor(sf: PS.Storefront, dryRun: bool): OdooClient.OdooProduct -> Visit {
    p => VisitProduct(sf, dryRun, p)
  }

  // ---------------------------------------------------------------------------
  // A run of any per-product step: rows and calls in product order
  // ---------------------------------------------------------------------------

  function Rows(visit: OdooClient.OdooProduct -> Visit, ps: seq<OdooClient.OdooProduct>): seq<StockRow> {
    if ps == [] then [] else Rows(visit, ps[..|ps| - 1]) + RowSeq(visit(ps[|ps| - 1]).row)
  }

  function Calls(visit: OdooClient.OdooProduct -> Visit, ps: seq<OdooClient.OdooProduct>): seq<PS.ApiCall> {
    if ps == [] then [] else Calls(visit, ps[..|ps| - 1]) + visit(ps[|ps| - 1]).calls
  }

  lemma RunSnoc(visit: OdooClient.OdooProduct -> Visit, ps: seq<OdooClient.OdooProduct>, p: OdooClient.OdooProduct)
    ensures Rows(visit, ps + [p]) == Rows(visit, ps) + RowSeq(visit(p).row)
    ensures Calls(visit, ps + [p]) == Calls(visit, ps) + visit(p).calls
  {
    assert (ps + [p])[..|ps|] == ps;
  }

  /** Rows follow the input order: the run over a concatenation is the concatenation of the runs. */
  lemma {:induction false} RowsAppend(visit: OdooClient.OdooProduct -> Visit, a: seq<OdooClient.OdooProduct>, b: seq<OdooClient.OdooProduct>)
    ensures Rows(visit, a + b) == Rows(visit, a) + Rows(visit, b)
    decreases |b|
  {
    if b == [] {
      assert a + b == a;
    } else {
      var b', last := b[..|b| - 1], b[|b| - 1];
      assert a + b == (a + b') + [last];
      assert b == b' + [last];
      var tail := RowSeq(visit(last).row);
      calc {
        Rows(visit, a + b);
        { RunSnoc(visit, a + b', last); }
        Rows(visit, a + b') + tail;
        { RowsAppend(visit, a, b'); }
        (Rows(visit, a) + Rows(visit, b')) + tail;
        Rows(visit, a) + (Rows(visit, b') + tail);
        { RunSnoc(visit, b', last); }
        Rows(visit, a) + Rows(visit, b);
      }
    }
  }

  /** Calls follow the input order in the same way. */
  lemma {:induction false} CallsAppend(visit: OdooClient.OdooProduct -> Visit, a: seq<OdooClient.OdooProduct>, b: seq<OdooClient.OdooProduct>)
    ensures Calls(visit, a + b) == Calls(visit, a) + Calls(visit, b)
    decreases |b|
  {
    if b == [] {
      assert a + b == a;
    } else {
      var b', last := b[..|b| - 1], b[|b| - 1];
      assert a + b == (a + b') + [last];
      assert b == b' + [last];
      var tail := visit(last).calls;
      calc {
        Calls(visit, a + b);
        { RunSnoc(visit, a + b', last); }
        Calls(visit, a + b') + tail;
        { CallsAppend(visit, a, b'); }
        (Calls(visit, a) + Calls(visit, b')) + tail;
        Calls(visit, a) + (Calls(visit, b') + tail);
        { RunSnoc(visit, b', last); }
        Calls(visit, a) + Calls(visit, b);
      }
    }
  }

  /** Each row comes from one product of the input, and every product that yields a row has it in the run. */
  lemma {:induction false} RowsMatchProducts(visit: OdooClient.OdooProduct -> Visit, ps: seq<OdooClient.OdooProduct>)
    ensures |Rows(visit, ps)| <= |ps|
    ensures forall r :: r in Rows(visit, ps) ==> exists i :: 0 <= i < |ps| && visit(ps[i]).row == Some(r)
    ensures forall i :: 0 <= i < |ps| && visit(ps[i]).row.Some? ==> visit(ps[i]).row.value in Rows(visit, ps)
  {
    if ps != [] {
      var init, n := ps[..|ps| - 1], |ps| - 1;
      RowsMatchProducts(visit, init);
      assert ps == init + [ps[n]];
      RunSnoc(visit, init, ps[n]);
      forall r | r in Rows(visit, ps)
        ensures exists i :: 0 <= i < |ps| && visit(ps[i]).row == Some(r)
      {
        if r in Rows(visit, init) {
          var i :| 0 <= i < |init| && visit(init[i]).row == Some(r);
          assert ps[i] == init[i];
        } else {
          assert visit(ps[n]).row == Some(r);
        }
      }
      forall i | 0 <= i < |ps| && visit(ps[i]).row.Some?
        ensures visit(ps[i]).row.value in Rows(visit, ps)
      {
        if i < n {
          assert ps[i] == init[i];
        }
      }
    }
  }

  // ---------------------------------------------------------------------------
  // The stock run
  // ---------------------------------------------------------------------------

  /** The audit rows of a run over `ps`, in product order. */
  function RowsOf(sf: PS.Storefront, dryRun: bool, ps: seq<OdooClient.OdooProduct>): seq<StockRow> {
    Rows(Visitor(sf, dryRun), ps)
  }

  /** The storefront calls of a run over `ps`, in the order they are made. */
  function CallsOf(sf: PS.Storefront, dryRun: bool, ps: seq<OdooClient.OdooProduct>): seq<PS.ApiCall> {
    Calls(Visitor(sf, dryRun), ps)
  }

  /** The rows whose status is Error. */
  function CountFailed(rows: seq<StockRow>): nat {
    if rows == [] then 0
    else CountFailed(rows[..|rows| - 1]) + (if rows[|rows| - 1].status == Failed then 1 else 0)
  }

  lemma CountFailedSnoc(rows: seq<StockRow>, r: StockRow)
    ensures CountFailed(rows + [r]) == CountFailed(rows) + (if r.status == Failed then 1 else 0)
  {
    assert (rows + [r])[..|rows|] == rows;
  }

  /** The products a run walks: the Odoo answer, or nothing when the fetch failed. */
  function Fetched(odoo: OdooClient.Odoo): seq<OdooClient.OdooProduct> {
    OdooClient.GetAllActiveProductsWithStock(odoo).value.GetOr([])
  }

  /**
   * The body of the loop for one product: the row it writes, if any, and the
   * storefront calls it makes, exactly as `VisitProduct` specifies.
   */
  method SyncProduct(sf: PS.Storefront, dryRun: bool, producto: OdooClient.OdooProduct)
    returns (row: Option<StockRow>, made: seq<PS.ApiCall>)
    ensures Visit(row, made) == VisitProduct(sf, dryRun, producto)
  {
    var reference := producto.defaultCode;
    var odooQty := OdooClient.QtyOf(producto);
    row, made := None, [];
    if !PhpEmpty(reference) {
      var stock := PS.GetStockByReference(sf, reference.value);
      made := stock.calls;
      if stock.value.Some? {
        var sent := if odooQty < 0 then 0 else odooQty;
        if sent != stock.value.value {
          if dryRun {
            row := Some(StockRow(reference.value, odooQty, stock.value.value, sent, Simulated));
          } else {
            var result := PS.UpdateStockByReference(sf, reference.value, sent);
            made := made + result.calls;
            var status := if result.value then Updated else Failed;
            row := Some(StockRow(reference.value, odooQty, stock.value.value, sent, status));
          }
        }
      }
    }
  }

  /**
   * syncAllStock. Returns the tally (`actualizados`, `errores`), the audit
   * rows in the order they are written to the CSV, and the storefront calls.
   */
  method SyncAllStock(odoo: OdooClient.Odoo, sf: PS.Storefront, dryRun: bool)
    returns (tally: Tally, rows: seq<StockRow>, calls: seq<PS.ApiCall>)
    ensures Fetched(odoo) == [] ==> tally == Tally(0, 0) && rows == [] && calls == []
    ensures rows == RowsOf(sf, dryRun, Fetched(odoo))
    ensures calls == CallsOf(sf, dryRun, Fetched(odoo))
    ensures tally.failed == CountFailed(rows)
    ensures tally.succeeded + tally.failed == |rows|
    ensures dryRun ==> tally.failed == 0 && PS.ReadOnly(calls)
  {
    // A failed fetch and an empty answer both end the run with nothing done.
    var products := Fetched(odoo);
    if |products| == 0 {
      return Tally(0, 0), [], [];
    }
    var visit := Visitor(sf, dryRun);
    var updated, failed := 0, 0;
    rows, calls := [], [];
    for i := 0 to |products|
      invariant rows == Rows(visit, products[..i])
      invariant calls == Calls(visit, products[..i])
      invariant failed == CountFailed(rows)
      invariant updated + failed == |rows|
    {
      var producto := products[i];
      var row, made := SyncProduct(sf, dryRun, producto);
      assert Visit(row, made) == visit(producto);
      Seqs.PrefixSnoc(products, i);
      RunSnoc(visit, products[..i], producto);
      if row.Some? {
        // "Simulado" and "Actualizado" count as done, "Error" as failed.
        CountFailedSnoc(rows, row.value);
        if row.value.status == Failed {
          failed := failed + 1;
        } else {
          updated := updated + 1;
        }
      } else {
        assert rows + RowSeq(row) == rows;
      }
      rows := rows + RowSeq(row);
      calls := calls + made;
    }
    assert products[..|products|] == products;
    if dryRun {
      DryRunWritesNothing(sf, products);
    }
    tally := Tally(updated, failed);
  }

  // ---------------------------------------------------------------------------
  // Properties of the stock run
  // ---------------------------------------------------------------------------

  /**
   * Every row is a differing product's: its reference is truthy, the stock
   * sent is the clamped Odoo stock (never negative) and differs from the
   * storefront's, and its status is Simulado exactly in a dry run.
   */
  lemma {:induction false} RowsAreDifferences(sf: PS.Storefront, dryRun: bool, ps: seq<OdooClient.OdooProduct>)
    ensures forall r :: r in RowsOf(sf, dryRun, ps) ==>
      && !PhpEmpty(Some(r.reference))
      && r.sentQty >= 0
      && r.sentQty == Clamp(r.odooQty)
      && r.sentQty != r.storeQty
      && (r.status == Simulated <==> dryRun)
  {
    if ps != [] {
      RowsAreDifferences(sf, dryRun, ps[..|ps| - 1]);
      var v := VisitProduct(sf, dryRun, ps[|ps| - 1]);
      assert RowsOf(sf, dryRun, ps) == RowsOf(sf, dryRun, ps[..|ps| - 1]) + RowSeq(v.row);
    }
  }

  /** A dry run never writes to the storefront and never counts an error. */
  lemma {:induction false} DryRunWritesNothing(sf: PS.Storefront, ps: seq<OdooClient.OdooProduct>)
    ensures PS.ReadOnly(CallsOf(sf, true, ps))
    ensures CountFailed(RowsOf(sf, true, ps)) == 0
  {
    if ps != [] {
      var init := ps[..|ps| - 1];
      DryRunWritesNothing(sf, init);
      var v := VisitProduct(sf, true, ps[|ps| - 1]);
      var rows, calls := RowsOf(sf, true, init), CallsOf(sf, true, init);
      assert RowsOf(sf, true, ps) == rows + RowSeq(v.row);
      assert CallsOf(sf, true, ps) == calls + v.calls;
      if v.row.Some? {
        CountFailedSnoc(rows, v.row.value);
      } else {
        assert rows + RowSeq(v.row) == rows;
      }
      assert forall i :: 0 <= i < |calls + v.calls| ==> (calls + v.calls)[i] in calls || (calls + v.calls)[i] in v.calls;
    }
  }

  /** In a real run no row is Simulado, and a row is Actualizado exactly when its update succeeded. */
  lemma {:induction false} RealRunStatuses(sf: PS.Storefront, ps: seq<OdooClient.OdooProduct>)
    ensures forall r :: r in RowsOf(sf, false, ps) ==>
      && r.status != Simulated
      && (r.status == Updated <==> PS.UpdateStockByReference(sf, r.reference, r.sentQty).value)
  {
    if ps != [] {
      RealRunStatuses(sf, ps[..|ps| - 1]);
      var p := ps[|ps| - 1];
      var v := VisitProduct(sf, false, p);
      assert RowsOf(sf, false, ps) == RowsOf(sf, false, ps[..|ps| - 1]) + RowSeq(v.row);
      if v.row.Some? {
        VisitProductCalls(sf, false, p);
      }
    }
  }
}

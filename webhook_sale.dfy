/**
 * The sale webhook (public/webhook_sale.php): PrestaShop posts an XML sale
 * notice; the handler validates it, looks the product up in Odoo, computes
 * the stock left after the sale (never below zero), appends an audit line to
 * the sales CSV and, unless the notice asks for a dry run, writes the new
 * stock to Odoo.
 *
 * The request body is a string; `parseXml` stands for SimpleXML together
 * with the array conversion and the `(int)` cast of `quantity_sold`,
 * answering `None` when the body is not well-formed XML. The sales CSV is a
 * sequence of lines, `None` while the file does not exist.
 */
module WebhookSale {
  import opened Wrappers
  import opened Text
  import opened Inventory
  import OdooClient

  /** The fields the handler reads from the sale notice; each may be absent. */
  datatype SaleMessage = SaleMessage(reference: Option<string>, quantitySold: Option<int>,
                                     orderId: Option<string>, dryRun: Option<string>)

  /** Why a notice was refused. */
  datatype Rejection = NoContent | InvalidXml | IncompleteData | NotFound(reference: string) | UpdateFailed

  datatype SaleStatus = DryRunStatus | OkStatus

  /** `<response><error>…</error></response>` or `<response><status>…</status><nuevo_stock>…</nuevo_stock></response>`. */
  datatype Body = ErrorBody(reason: Rejection) | StatusBody(status: SaleStatus, newStock: int)

  datatype HttpResponse = HttpResponse(code: int, body: Body)

  /** One line of webhook_sales.csv: timestamp, order_id, reference, quantity_sold, stock_actual, stock_calculado, dryRun. */
  datatype SaleRow = SaleRow(timestamp: string, orderId: Option<string>, reference: string, quantitySold: int,
                             stockBefore: int, stockAfter: int, dryRun: bool)

  datatype CsvLine = Header | Line(row: SaleRow)

  /** A sales CSV the handler itself created: the header first, then sale lines only. */
  predicate WellFormedLog(lines: seq<CsvLine>) {
    |lines| > 0 && lines[0].Header? && forall i :: 0 < i < |lines| ==> lines[i].Line?
  }

  /** The stock left after selling `sold` units of `before`: the difference, or 0 when the sale exceeds the stock. */
  function NewStock(before: int, sold: int): (n: nat)
    ensures n >= before - sold
    ensures before - sold >= 0 ==> n == before - sold
    ensures before - sold < 0 ==> n == 0
  {
    Clamp(before - sold)
  }

  /** The lines of the CSV after appending `row`; the header is written only when the file is new. */
  function Appended(log: Option<seq<CsvLine>>, row: SaleRow): (lines: seq<CsvLine>)
    ensures |lines| > 0 && lines[|lines| - 1] == Line(row)
    ensures log.Some? ==> lines == log.value + [Line(row)]
    ensures log.None? ==> lines == [Header, Line(row)]
  {
    match log
    case None => [Header, Line(row)]
    case Some(lines) => lines + [Line(row)]
  }

  /** Appending a sale keeps a well-formed CSV well formed, and a new file starts well formed. */
  lemma AppendKeepsLogWellFormed(log: Option<seq<CsvLine>>, row: SaleRow)
    requires log.Some? ==> WellFormedLog(log.value)
    ensures WellFormedLog(Appended(log, row))
    ensures log.Some? ==> |Appended(log, row)| == |log.value| + 1
  {
  }

  function SentOf(r: Option<OdooClient.RpcRequest>): seq<OdooClient.RpcRequest> {
    if r.Some? then [r.value] else []
  }

  /**
   * The handler. Returns the HTTP response, the CSV afterwards and the Odoo
   * requests sent, in order.
   */
  method HandleSale(input: string, parseXml: string -> Option<SaleMessage>, odoo: OdooClient.Odoo,
                    timestamp: string, log: Option<seq<CsvLine>>)
    returns (response: HttpResponse, logAfter: Option<seq<CsvLine>>, sent: seq<OdooClient.RpcRequest>)
    // An empty body, a body that is not XML or a notice without a reference
    // or quantity is refused with 400 before Odoo is contacted or the CSV touched.
    ensures PhpEmpty(Some(input)) ==> response == HttpResponse(400, ErrorBody(NoContent)) && logAfter == log && sent == []
    ensures !PhpEmpty(Some(input)) && parseXml(input).None? ==>
      response == HttpResponse(400, ErrorBody(InvalidXml)) && logAfter == log && sent == []
    ensures !PhpEmpty(Some(input)) && parseXml(input).Some? ==>
      var msg := parseXml(input).value;
      && ((PhpEmpty(msg.reference) || msg.quantitySold.None?) ==>
            response == HttpResponse(400, ErrorBody(IncompleteData)) && logAfter == log && sent == [])
      && (!PhpEmpty(msg.reference) && msg.quantitySold.Some? ==>
            var reference := msg.reference.value;
            var lookup := OdooClient.GetProductByReference(odoo, reference);
            // The product must be in Odoo; otherwise 404 and nothing is logged.
            && (lookup.value.None? ==>
                  response == HttpResponse(404, ErrorBody(NotFound(reference))) && logAfter == log
                  && sent == SentOf(lookup.sent))
            && (lookup.value.Some? ==>
                  var product := lookup.value.value;
                  var before := OdooClient.QtyOf(product);
                  var after := NewStock(before, msg.quantitySold.value);
                  var dryRun := msg.dryRun == Some("true");
                  // Exactly one audit line, whatever happens next.
                  && logAfter == Some(Appended(log, SaleRow(timestamp, msg.orderId, reference, msg.quantitySold.value, before, after, dryRun)))
                  && (dryRun ==> response == HttpResponse(200, StatusBody(DryRunStatus, after)) && sent == SentOf(lookup.sent))
                  && (!dryRun ==>
                        var update := OdooClient.UpdateProductStock(odoo, product.id, after);
                        && sent == SentOf(lookup.sent) + SentOf(update.sent)
                        && response == (if update.value then HttpResponse(200, StatusBody(OkStatus, after))
                                        else HttpResponse(500, ErrorBody(UpdateFailed))))))
  {
    if PhpEmpty(Some(input)) {
      return HttpResponse(400, ErrorBody(NoContent)), log, [];
    }
    var xml := parseXml(input);
    if xml.None? {
      return HttpResponse(400, ErrorBody(InvalidXml)), log, [];
    }
    var data := xml.value;
    var referencia := data.reference;
    var cantidadVendida := data.quantitySold;
    var orderId := data.orderId;
    var dryRun := data.dryRun == Some("true");
    if PhpEmpty(referencia) || cantidadVendida.None? {
      return HttpResponse(400, ErrorBody(IncompleteData)), log, [];
    }

    var lookup := OdooClient.GetProductByReference(odoo, referencia.value);
    sent := SentOf(lookup.sent);
    if lookup.value.None? {
      return HttpResponse(404, ErrorBody(NotFound(referencia.value))), log, sent;
    }
    var producto := lookup.value.value;
    var stockOdoo := OdooClient.QtyOf(producto);
    var nuevoStock := stockOdoo - cantidadVendida.value;
    if nuevoStock < 0 {
      nuevoStock := 0;
    }
    assert nuevoStock == NewStock(stockOdoo, cantidadVendida.value);

    // The header goes in only when the file is created by this append.
    var row := SaleRow(timestamp, orderId, referencia.value, cantidadVendida.value, stockOdoo, nuevoStock, dryRun);
    var lines := if log.None? then [Header] else log.value;
    lines := lines + [Line(row)];
    assert lines == Appended(log, row);
    logAfter := Some(lines);

    if dryRun {
      return HttpResponse(200, StatusBody(DryRunStatus, nuevoStock)), logAfter, sent;
    }

    var resultado := OdooClient.UpdateProductStock(odoo, producto.id, nuevoStock);
    sent := sent + SentOf(resultado.sent);
    if resultado.value {
      response := HttpResponse(200, StatusBody(OkStatus, nuevoStock));
    } else {
      response := HttpResponse(500, ErrorBody(UpdateFailed));
    }
  }
}

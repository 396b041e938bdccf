/**
 * The storefront side of the middleware (app/Services/PrestaShopClient.php):
 * the stored base URL, the XML envelope that sets a stock quantity, and the
 * step-by-step operations that chain lookups and updates with early exits.
 *
 * Each REST call is an oracle of `Storefront`: a lookup answers the id or
 * quantity the client would read from the response, or `None` when the
 * element is absent or the call threw; a PATCH answers the HTTP status, or
 * `None` when the call threw. Every operation returns its value together
 * with the calls it made, in order.
 */
module PrestaShopClient {
  import opened Wrappers
  import opened Text

  /** `rtrim($config['prestashop_base_url'], '/')`: the configured URL without any trailing slash. */
  function BaseUrl(configured: string): (b: string)
    ensures b <= configured
    ensures forall i :: |b| <= i < |configured| ==> configured[i] == '/'
    ensures b == [] || b[|b| - 1] != '/'
  {
    RTrimChar(configured, '/')
  }

  // ---------------------------------------------------------------------------
  // Request bodies
  // ---------------------------------------------------------------------------

  /** A DOM/SimpleXML tree as the client builds it. */
  datatype Xml = Element(tag: string, children: seq<Xml>) | CData(text: string) | TextNode(text: string)

  /** `<tag><![CDATA[n]]></tag>` */
  function CDataField(tag: string, n: int): Xml {
    Element(tag, [CData(IntToString(n))])
  }

  /** Reads back the integer of a `<tag><![CDATA[n]]></tag>` node. */
  function ReadCDataField(tag: string, x: Xml): Option<int> {
    if x.Element? && x.tag == tag && |x.children| == 1 && x.children[0].CData?
    then ParseInt(x.children[0].text)
    else None
  }

  /**
   * updateProductQuantity's body:
   * `prestashop > stock_available > (id, id_product, quantity)`, each child a CDATA integer.
   */
  function QuantityEnvelope(stockId: int, productId: int, quantity: int): (x: Xml)
    ensures ReadQuantityEnvelope(x) == Some((stockId, productId, quantity))
  {
    Element("prestashop", [
      Element("stock_available", [
        CDataField("id", stockId),
        CDataField("id_product", productId),
        CDataField("quantity", quantity)])])
  }

  /** The three integers of a stock envelope, if `x` has exactly that shape. */
  function ReadQuantityEnvelope(x: Xml): Option<(int, int, int)> {
    if x.Element? && x.tag == "prestashop" && |x.children| == 1
      && x.children[0].Element? && x.children[0].tag == "stock_available" && |x.children[0].children| == 3
    then
      var fields := x.children[0].children;
      var id := ReadCDataField("id", fields[0]);
      var product := ReadCDataField("id_product", fields[1]);
      var quantity := ReadCDataField("quantity", fields[2]);
      if id.Some? && product.Some? && quantity.Some? then Some((id.value, product.value, quantity.value)) else None
    else None
  }

  /** updateStockByReference's body: `<stock_available><quantity>q</quantity></stock_available>`. */
  function QuantityOnlyBody(quantity: int): (x: Xml)
    ensures ReadQuantityOnly(x) == Some(quantity)
  {
    Element("stock_available", [Element("quantity", [TextNode(IntToString(quantity))])])
  }

  function ReadQuantityOnly(x: Xml): Option<int> {
    if x.Element? && x.tag == "stock_available" && |x.children| == 1
      && x.children[0].Element? && x.children[0].tag == "quantity" && |x.children[0].children| == 1
      && x.children[0].children[0].TextNode?
    then ParseInt(x.children[0].children[0].text)
    else None
  }

  const StockAvailablesPath: string := "/api/stock_availables/"

  /** `/api/stock_availables/{stockId}` */
  function StockPath(stockId: int): string {
    StockAvailablesPath + IntToString(stockId)
  }

  /** Different stock records are patched at different paths. */
  lemma StockPathInjective(a: int, b: int)
    requires StockPath(a) == StockPath(b)
    ensures a == b
  {
    var n := |StockAvailablesPath|;
    assert StockPath(a)[n..] == IntToString(a);
    assert StockPath(b)[n..] == IntToString(b);
  }

  datatype PatchRequest = PatchRequest(path: string, body: Xml)

  // ---------------------------------------------------------------------------
  // The storefront oracle and the calls made to it
  // ---------------------------------------------------------------------------

  datatype Storefront = Storefront(
    // GET /api/products?filter[reference]=… : the first product's id
    productIdByReference: string -> Option<int>,
    // GET /api/products/{id} : associations > stock_availables > stock_available > id
    stockAvailableOfProduct: int -> Option<int>,
    // GET /api/stock_availables?filter[id_product]=…&display=[quantity]
    stockQuantityOfProduct: int -> Option<int>,
    // GET /api/stock_availables?filter[id_product]=…&display=[id]
    stockIdOfProduct: int -> Option<int>,
    // PATCH /api/products/{id} with the price envelope: true unless it threw
    patchPrice: (int, real) -> bool,
    // PATCH of a stock record: the HTTP status, None when it threw
    patch: PatchRequest -> Option<int>)

  datatype ApiCall =
    | FindProduct(reference: string)
    | FindStockAvailable(productId: int)
    | QueryStockQuantity(productId: int)
    | QueryStockId(productId: int)
    | PatchPrice(productId: int, price: real)
    | Patch(request: PatchRequest)
  {
    /** A call that changes the storefront. */
    predicate IsWrite() {
      PatchPrice? || Patch?
    }
  }

  predicate ReadOnly(calls: seq<ApiCall>) {
    forall i :: 0 <= i < |calls| ==> !calls[i].IsWrite()
  }

  /** The value an operation returns and the calls it made. */
  datatype ApiResult<T> = ApiResult(value: T, calls: seq<ApiCall>)

  /** `!$id`: an id lookup succeeded with a non-zero id. */
  predicate Found(id: Option<int>) {
    id.Some? && id.value != 0
  }

  // ---------------------------------------------------------------------------
  // Operations
  // ---------------------------------------------------------------------------

  /**
   * updateProductQuantity: one PATCH to `/api/stock_availables/{stockId}` whose
   * envelope carries the three integers; succeeds when the PATCH did not throw.
   */
  function UpdateProductQuantity(sf: Storefront, stockId: int, productId: int, quantity: int): (r: ApiResult<bool>)
    ensures |r.calls| == 1 && r.calls[0].Patch?
    ensures r.calls[0].request.path == StockPath(stockId)
    ensures ReadQuantityEnvelope(r.calls[0].request.body) == Some((stockId, productId, quantity))
    ensures r.value <==> sf.patch(r.calls[0].request).Some?
  {
    var request := PatchRequest(StockPath(stockId), QuantityEnvelope(stockId, productId, quantity));
    ApiResult(sf.patch(request).Some?, [Patch(request)])
  }

  /**
   * getStockByReference: the product's stock quantity. When the product
   * lookup fails the stock is not queried; the operation never writes.
   */
  function GetStockByReference(sf: Storefront, reference: string): (r: ApiResult<Option<int>>)
    ensures ReadOnly(r.calls)
    ensures |r.calls| > 0 && r.calls[0] == FindProduct(reference)
    ensures !Found(sf.productIdByReference(reference)) ==> r.value.None? && r.calls == [FindProduct(reference)]
    ensures Found(sf.productIdByReference(reference)) ==>
      var productId := sf.productIdByReference(reference).value;
      r.value == sf.stockQuantityOfProduct(productId)
      && r.calls == [FindProduct(reference), QueryStockQuantity(productId)]
  {
    var productId := sf.productIdByReference(reference);
    if !Found(productId) then ApiResult(None, [FindProduct(reference)])
    else ApiResult(sf.stockQuantityOfProduct(productId.value), [FindProduct(reference), QueryStockQuantity(productId.value)])
  }

  /**
   * updateStockByReference: true only when the product is found, its stock
   * record is found, and the PATCH answers exactly 200. The only write is
   * that PATCH, whose body carries the new quantity, sent to the record's path.
   */
  function UpdateStockByReference(sf: Storefront, reference: string, quantity: int): (r: ApiResult<bool>)
    ensures |r.calls| > 0 && r.calls[0] == FindProduct(reference)
    ensures ReadOnly(r.calls[..|r.calls| - 1])
    ensures r.value <==> r.calls[|r.calls| - 1].Patch? && sf.patch(r.calls[|r.calls| - 1].request) == Some(200)
    ensures r.calls[|r.calls| - 1].IsWrite() <==>
      Found(sf.productIdByReference(reference))
      && sf.stockIdOfProduct(sf.productIdByReference(reference).value).Some?
    ensures r.calls[|r.calls| - 1].IsWrite() ==>
      var stockId := sf.stockIdOfProduct(sf.productIdByReference(reference).value).value;
      && r.calls[|r.calls| - 1].Patch?
      && r.calls[|r.calls| - 1].request.path == StockPath(stockId)
      && ReadQuantityOnly(r.calls[|r.calls| - 1].request.body) == Some(quantity)
  {
    var productId := sf.productIdByReference(reference);
    if !Found(productId) then ApiResult(false, [FindProduct(reference)])
    else
      var stockId := sf.stockIdOfProduct(productId.value);
      if stockId.None? then ApiResult(false, [FindProduct(reference), QueryStockId(productId.value)])
      else
        var request := PatchRequest(StockPath(stockId.value), QuantityOnlyBody(quantity));
        ApiResult(sf.patch(request) == Some(200), [FindProduct(reference), QueryStockId(productId.value), Patch(request)])
  }

  /** The fields of the array syncProductFromOdoo reads; each may be missing. */
  datatype SyncData = SyncData(reference: Option<string>, price: Option<real>, quantity: Option<int>)

  predicate Complete(d: SyncData) {
    !PhpEmpty(d.reference) && d.price.Some? && d.quantity.Some?
  }

  /**
   * syncProductFromOdoo: with a reference, a price and a quantity, look the
   * product up, update its price, look its stock record up and update its
   * quantity. It stops at the first failed lookup; once both lookups
   * succeed both updates have been attempted and the result is their AND.
   */
  function SyncProductFromOdoo(sf: Storefront, d: SyncData): (r: ApiResult<bool>)
    // Incomplete data: refused before any remote call.
    ensures !Complete(d) ==> !r.value && r.calls == []
    ensures Complete(d) ==> |r.calls| > 0 && r.calls[0] == FindProduct(d.reference.value)
    // Success needs the product and its stock record to be found.
    ensures r.value ==> Complete(d) && |r.calls| == 4
  {
    if !Complete(d) then ApiResult(false, [])
    else
      var reference := d.reference.value;
      var productId := sf.productIdByReference(reference);
      if !Found(productId) then ApiResult(false, [FindProduct(reference)])
      else
        var priceUpdated := sf.patchPrice(productId.value, d.price.value);
        var stockId := sf.stockAvailableOfProduct(productId.value);
        var prefix := [FindProduct(reference), PatchPrice(productId.value, d.price.value), FindStockAvailable(productId.value)];
        if !Found(stockId) then ApiResult(false, prefix)
        else
          var quantityUpdated := UpdateProductQuantity(sf, stockId.value, productId.value, d.quantity.value);
          ApiResult(priceUpdated && quantityUpdated.value, prefix + quantityUpdated.calls)
  }

  /**
   * The steps of syncProductFromOdoo for complete data: an unknown product
   * stops it before the price update; a known product gets its price patched
   * before its stock record is looked up; a found stock record gets one
   * stock PATCH carrying the record, the product and the quantity; the
   * result is true exactly when both updates went through.
   */
  lemma SyncProductFromOdooSteps(sf: Storefront, d: SyncData)
    requires Complete(d)
    ensures var r := SyncProductFromOdoo(sf, d);
      && (!Found(sf.productIdByReference(d.reference.value)) ==> !r.value && r.calls == [FindProduct(d.reference.value)])
      && (Found(sf.productIdByReference(d.reference.value)) ==>
            var productId := sf.productIdByReference(d.reference.value).value;
            && |r.calls| >= 3
            && r.calls[1] == PatchPrice(productId, d.price.value)
            && r.calls[2] == FindStockAvailable(productId)
            && (!Found(sf.stockAvailableOfProduct(productId)) ==> !r.value && |r.calls| == 3)
            && (Found(sf.stockAvailableOfProduct(productId)) ==>
                  var stockId := sf.stockAvailableOfProduct(productId).value;
                  && |r.calls| == 4
                  && r.calls[3].Patch?
                  && r.calls[3].request.path == StockPath(stockId)
                  && ReadQuantityEnvelope(r.calls[3].request.body) == Some((stockId, productId, d.quantity.value))
                  && (r.value <==> sf.patchPrice(productId, d.price.value) && sf.patch(r.calls[3].request).Some?)))
  {
  }
}

/**
 * The ERP side of the middleware (app/Services/OdooClient.php): the
 * configuration check over the environment, the credentials it yields, the
 * JSON-RPC endpoint, the field mapper from Odoo records to the canonical
 * product shape, and the four remote operations the entry points use.
 *
 * The JSON-RPC transport is an oracle: `searchRead` answers a search_read call
 * with the `result` list, or `None` when the call threw or the answer had no
 * `result`; `create` says whether a create call answered with a `result`.
 * Each operation returns, next to its value, the request it sent, if any.
 */
module OdooClient {
  import opened Wrappers
  import opened Text

  /** The process environment (`$_ENV`). */
  type Env = map<string, string>

  /** A product record as search_read returns it; a field that is absent, null or false is `None`. */
  datatype OdooProduct = OdooProduct(
    id: int,
    name: Option<string>,
    defaultCode: Option<string>,
    listPrice: Option<real>,
    qtyAvailable: Option<int>,
    writeDate: Option<string>)

  /** `(int) $p['qty_available']`: a missing quantity reads as 0. */
  function QtyOf(p: OdooProduct): int {
    p.qtyAvailable.GetOr(0)
  }

  // ---------------------------------------------------------------------------
  // Configuration
  // ---------------------------------------------------------------------------

  /** The four environment variables the ERP client needs. */
  datatype Key = OdooUrl | OdooDb | OdooUser | OdooPass

  /** The name under which each key is looked up in `$_ENV`. */
  function Name(k: Key): string {
    match k
    case OdooUrl => "ODOO_URL"
    case OdooDb => "ODOO_DB"
    case OdooUser => "ODOO_USER"
    case OdooPass => "ODOO_PASS"
  }

  /** `$requiredKeys`, in the order they are checked. */
  const RequiredKeys: seq<Key> := [OdooUrl, OdooDb, OdooUser, OdooPass]

  /** `trim($_ENV[$key] ?? '') === ''` */
  predicate Blank(env: Env, k: Key) {
    Name(k) !in env || Trim(env[Name(k)]) == ""
  }

  /** The blank keys among `keys`, in their order: each blank key and nothing else. */
  function MissingFrom(env: Env, keys: seq<Key>): (m: seq<Key>)
    ensures |m| <= |keys|
    ensures forall k :: k in m <==> k in keys && Blank(env, k)
  {
    if keys == [] then []
    else
      var last := keys[|keys| - 1];
      MissingFrom(env, keys[..|keys| - 1]) + (if Blank(env, last) then [last] else [])
  }

  /** What checkOdooConfig collects into `$missing`. */
  function MissingKeys(env: Env): seq<Key> {
    MissingFrom(env, RequiredKeys)
  }

  /** The value of a present key: the raw environment string, which is not whitespace only. */
  function Value(env: Env, k: Key): string
    requires !Blank(env, k)
  {
    env[Name(k)]
  }

  lemma KeyRequired(k: Key)
    ensures k in RequiredKeys
  {
    match k
    case OdooUrl => assert RequiredKeys[0] == k;
    case OdooDb => assert RequiredKeys[1] == k;
    case OdooUser => assert RequiredKeys[2] == k;
    case OdooPass => assert RequiredKeys[3] == k;
  }

  /** Nothing is collected as missing exactly when no key is blank. */
  lemma NoneMissingIffNoneBlank(env: Env)
    ensures MissingKeys(env) == [] <==> forall k: Key :: !Blank(env, k)
  {
    if MissingKeys(env) != [] {
      assert MissingKeys(env)[0] in MissingKeys(env);
    } else {
      forall k: Key ensures !Blank(env, k) {
        KeyRequired(k);
      }
    }
  }

  /** checkOdooConfig's verdict: no required key is blank and `ODOO_URL` passes the URL validator. */
  predicate ConfigValid(env: Env, validUrl: string -> bool) {
    (forall k: Key :: !Blank(env, k)) && validUrl(Value(env, OdooUrl))
  }

  /**
   * checkOdooConfig: walks the four required keys, collecting every blank one,
   * then validates the URL only when none is missing.
   */
  method CheckOdooConfig(env: Env, validUrl: string -> bool) returns (ok: bool, missing: seq<Key>)
    ensures missing == MissingKeys(env)
    ensures forall k: Key :: k in missing <==> Blank(env, k)
    ensures missing == [] <==> forall k: Key :: !Blank(env, k)
    ensures ok <==> ConfigValid(env, validUrl)
  {
    missing := [];
    for i := 0 to |RequiredKeys|
      invariant missing == MissingFrom(env, RequiredKeys[..i])
    {
      var key := RequiredKeys[i];
      var value := if Name(key) in env then env[Name(key)] else "";
      assert RequiredKeys[..i + 1][..i] == RequiredKeys[..i];
      if Trim(value) == "" {
        missing := missing + [key];
      }
    }
    assert RequiredKeys[..|RequiredKeys|] == RequiredKeys;
    forall k: Key ensures k in missing <==> Blank(env, k) {
      KeyRequired(k);
    }
    NoneMissingIffNoneBlank(env);
    if missing != [] {
      return false, missing;
    }
    ok := validUrl(Value(env, OdooUrl));
  }

  datatype Credentials = Credentials(url: string, db: string, user: string, pass: string)

  /** getOdooCredentials: the four environment values, unchanged, exactly when the configuration is valid. */
  function GetCredentials(env: Env, validUrl: string -> bool): (c: Option<Credentials>)
    ensures c.None? <==> !ConfigValid(env, validUrl)
    ensures c.Some? ==> forall k: Key :: !Blank(env, k)
    ensures c.Some? ==> c.value == Credentials(
      Value(env, OdooUrl), Value(env, OdooDb), Value(env, OdooUser), Value(env, OdooPass))
  {
    if !ConfigValid(env, validUrl) then None
    else
      Some(Credentials(Value(env, OdooUrl), Value(env, OdooDb), Value(env, OdooUser), Value(env, OdooPass)))
  }

  // ---------------------------------------------------------------------------
  // Endpoint and requests
  // ---------------------------------------------------------------------------

  /**
   * `rtrim($url, '/') . '/jsonrpc'`: the URL without its trailing slashes,
   * followed by `/jsonrpc`, so that exactly one slash separates the two.
   */
  function Endpoint(url: string): (e: string)
    ensures |e| >= 8 && e[|e| - 8..] == "/jsonrpc"
    ensures e[..|e| - 8] <= url
    ensures forall i :: |e| - 8 <= i < |url| ==> url[i] == '/'
    ensures |e| == 8 || e[|e| - 9] != '/'
  {
    var base := RTrimChar(url, '/');
    var e := base + "/jsonrpc";
    assert e[..|e| - 8] == base && e[|e| - 8..] == "/jsonrpc";
    e
  }

  /** Every call runs as uid 2; `ODOO_USER` is checked but never sent. */
  const Uid: int := 2

  datatype Domain = WriteDateSince(datetime: string) | ActiveOnly | DefaultCodeIs(reference: string)

  datatype Call =
    | SearchRead(domain: Domain, fields: seq<string>, limit: nat)
    | ChangeQuantity(productId: int, newQuantity: int)

  /** An `execute_kw` call as it is posted to the endpoint. */
  datatype RpcRequest = RpcRequest(endpoint: string, db: string, uid: int, password: string, model: string, call: Call)

  /** The ERP as seen by the client: its environment and its JSON-RPC answers. */
  datatype Odoo = Odoo(
    env: Env,
    validUrl: string -> bool,
    searchRead: RpcRequest -> Option<seq<OdooProduct>>,
    create: RpcRequest -> bool)

  /** The value an operation returns and the request it sent, if it sent one. */
  datatype RpcResult<T> = RpcResult(value: T, sent: Option<RpcRequest>)

  function Request(c: Credentials, model: string, call: Call): RpcRequest {
    RpcRequest(Endpoint(c.url), c.db, Uid, c.pass, model, call)
  }

  /** The request carries the configured database and password and goes to the configured endpoint. */
  predicate Authenticated(odoo: Odoo, req: RpcRequest)
    requires ConfigValid(odoo.env, odoo.validUrl)
  {
    var c := GetCredentials(odoo.env, odoo.validUrl).value;
    req.endpoint == Endpoint(c.url) && req.db == c.db && req.password == c.pass && req.uid == Uid
  }

  const ModifiedFields: seq<string> := ["id", "name", "default_code", "list_price", "qty_available", "write_date"]
  const ActiveFields: seq<string> := ["id", "name", "default_code", "qty_available"]
  const LookupFields: seq<string> := ["id", "default_code", "qty_available"]

  /** getModifiedProductsSince: products written at or after `datetime`, at most 100. */
  function GetModifiedProductsSince(odoo: Odoo, datetime: string): (r: RpcResult<Option<seq<OdooProduct>>>)
    ensures r.sent.None? <==> !ConfigValid(odoo.env, odoo.validUrl)
    ensures r.sent.None? ==> r.value.None?
    ensures r.sent.Some? ==>
      && Authenticated(odoo, r.sent.value)
      && r.sent.value.model == "product.product"
      && r.sent.value.call == SearchRead(WriteDateSince(datetime), ModifiedFields, 100)
      && r.value == odoo.searchRead(r.sent.value)
  {
    match GetCredentials(odoo.env, odoo.validUrl)
    case None => RpcResult(None, None)
    case Some(c) =>
      var req := Request(c, "product.product", SearchRead(WriteDateSince(datetime), ModifiedFields, 100));
      RpcResult(odoo.searchRead(req), Some(req))
  }

  /** getAllActiveProductsWithStock: every active product, at most 1000. */
  function GetAllActiveProductsWithStock(odoo: Odoo): (r: RpcResult<Option<seq<OdooProduct>>>)
    ensures r.sent.None? <==> !ConfigValid(odoo.env, odoo.validUrl)
    ensures r.sent.None? ==> r.value.None?
    ensures r.sent.Some? ==>
      && Authenticated(odoo, r.sent.value)
      && r.sent.value.model == "product.product"
      && r.sent.value.call == SearchRead(ActiveOnly, ActiveFields, 1000)
      && r.value == odoo.searchRead(r.sent.value)
  {
    match GetCredentials(odoo.env, odoo.validUrl)
    case None => RpcResult(None, None)
    case Some(c) =>
      var req := Request(c, "product.product", SearchRead(ActiveOnly, ActiveFields, 1000));
      RpcResult(odoo.searchRead(req), Some(req))
  }

  /** getProductByReference: the first record whose `default_code` is `reference`, if the search found any. */
  function GetProductByReference(odoo: Odoo, reference: string): (r: RpcResult<Option<OdooProduct>>)
    ensures r.sent.None? <==> !ConfigValid(odoo.env, odoo.validUrl)
    ensures r.sent.Some? ==>
      && Authenticated(odoo, r.sent.value)
      && r.sent.value.model == "product.product"
      && r.sent.value.call == SearchRead(DefaultCodeIs(reference), LookupFields, 1)
    ensures r.value.Some? <==>
      r.sent.Some? && odoo.searchRead(r.sent.value).Some? && |odoo.searchRead(r.sent.value).value| > 0
    ensures r.value.Some? ==> r.value.value == odoo.searchRead(r.sent.value).value[0]
  {
    match GetCredentials(odoo.env, odoo.validUrl)
    case None => RpcResult(None, None)
    case Some(c) =>
      var req := Request(c, "product.product", SearchRead(DefaultCodeIs(reference), LookupFields, 1));
      var found := odoo.searchRead(req);
      RpcResult(if found.Some? && |found.value| > 0 then Some(found.value[0]) else None, Some(req))
  }

  /** updateProductStock: creates a `stock.change.product.qty` record setting the product's quantity. */
  function UpdateProductStock(odoo: Odoo, productId: int, newQuantity: int): (r: RpcResult<bool>)
    ensures r.sent.None? <==> !ConfigValid(odoo.env, odoo.validUrl)
    ensures r.sent.None? ==> !r.value
    ensures r.sent.Some? ==>
      && Authenticated(odoo, r.sent.value)
      && r.sent.value.model == "stock.change.product.qty"
      && r.sent.value.call == ChangeQuantity(productId, newQuantity)
      && r.value == odoo.create(r.sent.value)
  {
    match GetCredentials(odoo.env, odoo.validUrl)
    case None => RpcResult(false, None)
    case Some(c) =>
      var req := Request(c, "stock.change.product.qty", ChangeQuantity(productId, newQuantity));
      RpcResult(odoo.create(req), Some(req))
  }

  // ---------------------------------------------------------------------------
  // Field mapper
  // ---------------------------------------------------------------------------

  /** The canonical product shape handed to the storefront client. */
  datatype Mapped = Mapped(id: int, reference: string, name: string, price: real, quantity: int, writeDate: Option<string>)

  /**
   * mapProductFields: a record without a reference (by `empty()`, so also "0")
   * is dropped; otherwise the reference is the `default_code` and absent
   * fields take the defaults '' for the name, 0.0 for the price and 0 for the
   * quantity.
   */
  function MapProductFields(p: OdooProduct): (m: Option<Mapped>)
    ensures m.None? <==> PhpEmpty(p.defaultCode)
    ensures m.Some? ==> !PhpEmpty(Some(m.value.reference)) && Some(m.value.reference) == p.defaultCode
    ensures m.Some? ==> m.value.id == p.id && m.value.writeDate == p.writeDate
    ensures m.Some? ==> m.value.name == (if p.name.Some? then p.name.value else "")
    ensures m.Some? ==> m.value.price == (if p.listPrice.Some? then p.listPrice.value else 0.0)
    ensures m.Some? ==> m.value.quantity == (if p.qtyAvailable.Some? then p.qtyAvailable.value else 0)
  {
    if PhpEmpty(p.defaultCode) then None
    else Some(Mapped(
      p.id,
      p.defaultCode.value,
      p.name.GetOr(""),
      p.listPrice.GetOr(0.0),
      p.qtyAvailable.GetOr(0),
      p.writeDate))
  }
}

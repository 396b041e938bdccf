/**
 * The incremental Odoo to PrestaShop synchronisation run
 * (public/sync_odoo_cron.php): it reads the lookback range and the saved
 * cursor, chooses the cutoff date, fetches the products modified since then,
 * keeps those with a reference, pushes each one (price and clamped quantity)
 * or simulates it, and advances the cursor after every real run whose fetch
 * returned products.
 *
 * The clock is a parameter: `now` is `time()`, `format` is
 * `date('Y-m-d H:i:s', ·)` and `parseTime` is `strtotime` on an absolute
 * date, `None` where it returns false.
 */
module OdooCron {
  import opened Wrappers
  import opened Text
  import opened Inventory
  import OdooClient
  import PS = PrestaShopClient
  import Seqs

  // ---------------------------------------------------------------------------
  // parseTimeRange
  // ---------------------------------------------------------------------------

  datatype Unit = Hours | Days | Minutes

  /** The unit letters of the pattern `^(\d+)([hdm])$`. */
  function UnitOf(c: char): (u: Option<Unit>)
    ensures u.Some? <==> c == 'h' || c == 'd' || c == 'm'
    ensures u.Some? ==> UnitChar(u.value) == c
  {
    if c == 'h' then Some(Hours) else if c == 'd' then Some(Days) else if c == 'm' then Some(Minutes) else None
  }

  function UnitChar(u: Unit): char {
    match u
    case Hours => 'h'
    case Days => 'd'
    case Minutes => 'm'
  }

  /** The relative time `parseTimeRange` produces: `-N hours|days|minutes`, or the fallback `-1 hour`. */
  datatype Lookback = Back(amount: nat, unit: Unit) | OneHourBack

  /** The string handed to `strtotime`. */
  function Phrase(t: Lookback): string {
    match t
    case Back(n, Hours) => "-" + NatToString(n) + " hours"
    case Back(n, Days) => "-" + NatToString(n) + " days"
    case Back(n, Minutes) => "-" + NatToString(n) + " minutes"
    case OneHourBack => "-1 hour"
  }

  /** How far back a lookback reaches, taking a day as 86400 seconds. */
  function Seconds(t: Lookback): nat {
    match t
    case Back(n, Hours) => n * 3600
    case Back(n, Days) => n * 86400
    case Back(n, Minutes) => n * 60
    case OneHourBack => 3600
  }

  /** A trimmed range the pattern accepts: one or more digits, then a unit letter. */
  predicate WellFormedRange(s: string) {
    |s| >= 2 && AllDigits(s[..|s| - 1]) && UnitOf(s[|s| - 1]).Some?
  }

  /**
   * parseTimeRange: the trimmed range, when it is digits followed by `h`, `d`
   * or `m`, read as that many hours, days or minutes; anything else falls
   * back to one hour.
   */
  function ParseTimeRange(range: string): (t: Lookback)
    ensures t.OneHourBack? <==> !WellFormedRange(Trim(range))
    ensures t.Back? ==>
      var s := Trim(range);
      && ParseInt(s[..|s| - 1]) == Some(t.amount)
      && UnitChar(t.unit) == s[|s| - 1]
  {
    var s := Trim(range);
    if WellFormedRange(s) then Back(DigitsValue(s[..|s| - 1]), UnitOf(s[|s| - 1]).value)
    else OneHourBack
  }

  /** A trimmed range of digits and a unit letter is read as the digits' value in that unit. */
  lemma ParseWellFormed(range: string, digits: string, u: Unit)
    requires Trim(range) == digits + [UnitChar(u)]
    requires |digits| > 0 && AllDigits(digits)
    ensures ParseTimeRange(range) == Back(DigitsValue(digits), u)
  {
    var s := Trim(range);
    assert s[..|s| - 1] == digits;
  }

  /** Any amount and unit, written in decimal and padded with whitespace, is read back exactly. */
  lemma ParseTimeRangeRoundTrip(pre: string, n: nat, u: Unit, post: string)
    requires AllPhpSpace(pre) && AllPhpSpace(post)
    ensures ParseTimeRange(pre + NatToString(n) + [UnitChar(u)] + post) == Back(n, u)
  {
    var digits := NatToString(n);
    var s := digits + [UnitChar(u)];
    var r := pre + digits + [UnitChar(u)] + post;
    assert r == pre + s + post;
    assert s[0] == digits[0];
    TrimPadded(pre, s, post);
    ParseWellFormed(r, digits, u);
  }

  /**
   * The string parseTimeRange returns and the span it stands for: for a
   * matching range, `-N hours|days|minutes` with N the digits' value written
   * without leading zeros, and N times the unit's length in seconds;
   * otherwise `-1 hour`, 3600 seconds.
   */
  lemma PhraseOfRange(range: string)
    ensures !WellFormedRange(Trim(range)) ==> Phrase(ParseTimeRange(range)) == "-1 hour" && Seconds(ParseTimeRange(range)) == 3600
    ensures WellFormedRange(Trim(range)) ==>
      var s := Trim(range);
      var n := DigitsValue(s[..|s| - 1]);
      var c := s[|s| - 1];
      && Phrase(ParseTimeRange(range)) == "-" + NatToString(n) + (if c == 'h' then " hours" else if c == 'd' then " days" else " minutes")
      && Seconds(ParseTimeRange(range)) == n * (if c == 'h' then 3600 else if c == 'd' then 86400 else 60)
  {
  }

  /** The default range `1h` and the fallback reach back the same hour. */
  lemma DefaultRangeIsOneHour()
    ensures ParseTimeRange("1h") == Back(1, Hours)
    ensures Seconds(ParseTimeRange("1h")) == Seconds(OneHourBack) == 3600
  {
    TrimPadded("", "1h", "");
    assert "" + "1h" + "" == "1h";
    ParseWellFormed("1h", "1", Hours);
  }

  /** A range that trims to `s`, where `s` is not digits followed by a unit letter, falls back to one hour. */
  lemma FallsBack(s: string)
    requires s == [] || (!IsPhpSpace(s[0]) && !IsPhpSpace(s[|s| - 1]))
    requires !WellFormedRange(s)
    ensures ParseTimeRange(s) == OneHourBack
  {
    TrimPadded("", s, "");
    assert "" + s + "" == s;
  }

  /** A negative range is not a shorter lookback: the sign makes the pattern fail. */
  lemma NegativeRangeFallsBack()
    ensures ParseTimeRange("-3h") == OneHourBack
  {
    assert "-3h"[..2][0] == '-';
    FallsBack("-3h");
  }

  // ---------------------------------------------------------------------------
  // getLastSyncTimestamp
  // ---------------------------------------------------------------------------

  /** Where a run starts: a fresh lookback from now, or the saved cursor. */
  datatype Since = Fresh(start: int) | Resumed(stored: string)

  /**
   * getLastSyncTimestamp: in a dry run, a forced range or without a cursor
   * file the cutoff is `now` minus the range; otherwise the trimmed cursor is
   * used verbatim, unless `strtotime` rejects it (false or 0) or puts it in
   * the future, which falls back to the range too.
   */
  function LastSyncTimestamp(dryRun: bool, forceRange: bool, stored: Option<string>, range: string,
                             now: int, parseTime: string -> Option<int>): (s: Since)
    ensures s.Resumed? <==>
      && !dryRun && !forceRange && stored.Some?
      && var t := parseTime(Trim(stored.value)); t.Some? && t.value != 0 && t.value <= now
    ensures s.Resumed? ==> s.stored == Trim(stored.value)
    ensures s.Fresh? ==> s.start == now - Seconds(ParseTimeRange(range))
  {
    var fallback := Fresh(now - Seconds(ParseTimeRange(range)));
    if dryRun || forceRange || stored.None? then fallback
    else
      var trimmed := Trim(stored.value);
      var storedTime := parseTime(trimmed);
      if storedTime.None? || storedTime.value == 0 || storedTime.value > now then fallback
      else Resumed(trimmed)
  }

  /** The moment a cutoff stands for. */
  function SinceTime(s: Since, parseTime: string -> Option<int>): int {
    match s
    case Fresh(t) => t
    case Resumed(stored) => parseTime(stored).GetOr(0)
  }

  /** The cutoff never lies in the future, and a fresh one reaches back exactly the range. */
  lemma CutoffNotInFuture(dryRun: bool, forceRange: bool, stored: Option<string>, range: string,
                          now: int, parseTime: string -> Option<int>)
    ensures var s := LastSyncTimestamp(dryRun, forceRange, stored, range, now, parseTime);
      && SinceTime(s, parseTime) <= now
      && (s.Fresh? ==> now - SinceTime(s, parseTime) == Seconds(ParseTimeRange(range)))
  {
  }

  /** The string sent to Odoo as the cutoff. */
  function Cutoff(s: Since, format: int -> string): string {
    match s
    case Fresh(t) => format(t)
    case Resumed(stored) => stored
  }

  // ---------------------------------------------------------------------------
  // The products to push
  // ---------------------------------------------------------------------------

  /** `array_filter(array_map(mapProductFields, $raw))`: the mapped products with a reference, in order. */
  function ValidProducts(raw: seq<OdooClient.OdooProduct>): (ms: seq<OdooClient.Mapped>)
    ensures |ms| <= |raw|
    ensures forall i :: 0 <= i < |ms| ==> !PhpEmpty(Some(ms[i].reference))
  {
    if raw == [] then []
    else
      var init := ValidProducts(raw[..|raw| - 1]);
      match OdooClient.MapProductFields(raw[|raw| - 1])
      case None => init
      case Some(m) => init + [m]
  }

  /** Every kept product is the mapping of an input record, and every record with a reference is kept. */
  lemma {:induction false} ValidProductsMembers(raw: seq<OdooClient.OdooProduct>)
    ensures forall m :: m in ValidProducts(raw) ==> exists p :: p in raw && OdooClient.MapProductFields(p) == Some(m)
    ensures forall p :: p in raw && !PhpEmpty(p.defaultCode) ==> OdooClient.MapProductFields(p).value in ValidProducts(raw)
  {
    if raw != [] {
      var init, last := raw[..|raw| - 1], raw[|raw| - 1];
      ValidProductsMembers(init);
      assert forall p :: p in raw ==> p in init || p == last;
      assert forall p :: p in init ==> p in raw;
    }
  }

  /** A single record is kept, mapped, exactly when it has a reference. */
  lemma ValidProductsSingleton(p: OdooClient.OdooProduct)
    ensures ValidProducts([p]) == if PhpEmpty(p.defaultCode) then [] else [OdooClient.MapProductFields(p).value]
  {
    assert [p][..0] == [];
  }

  /** One more record adds what that record alone would yield. */
  lemma ValidProductsSnoc(ps: seq<OdooClient.OdooProduct>, p: OdooClient.OdooProduct)
    ensures ValidProducts(ps + [p]) == ValidProducts(ps) + ValidProducts([p])
  {
    assert (ps + [p])[..|ps|] == ps;
    ValidProductsSingleton(p);
  }

  /**
   * The filter keeps Odoo's order and each record at most once: the products
   * of a concatenation are those of the first part followed by those of the second.
   */
  lemma {:induction false} ValidProductsAppend(a: seq<OdooClient.OdooProduct>, b: seq<OdooClient.OdooProduct>)
    ensures ValidProducts(a + b) == ValidProducts(a) + ValidProducts(b)
    decreases |b|
  {
    if b == [] {
      assert a + b == a;
    } else {
      var b', last := b[..|b| - 1], b[|b| - 1];
      Seqs.SplitLast(a, b);
      ValidProductsAppend(a, b');
      ValidProductsSnoc(a + b', last);
      ValidProductsSnoc(b', last);
      var x, y, z := ValidProducts(a), ValidProducts(b'), ValidProducts([last]);
      assert (x + y) + z == x + (y + z);
    }
  }

  // ---------------------------------------------------------------------------
  // The push loop
  // ---------------------------------------------------------------------------

  /** One CSV row: Referencia, Precio Odoo, Cantidad Odoo, Cantidad Enviada, Estado. */
  datatype CronRow = CronRow(reference: string, price: real, odooQty: int, sentQty: int, status: Status)

  datatype Pushed = Pushed(row: CronRow, calls: seq<PS.ApiCall>)

  /** The data handed to syncProductFromOdoo: the mapped product with its quantity clamped. */
  function SyncDataOf(m: OdooClient.Mapped): PS.SyncData {
    PS.SyncData(Some(m.reference), Some(m.price), Some(Clamp(m.quantity)))
  }

  /**
   * One iteration: always one row, with the clamped quantity; a dry run only
   * simulates, a real run calls syncProductFromOdoo and reports its outcome.
   */
  function PushOne(sf: PS.Storefront, dryRun: bool, m: OdooClient.Mapped): (p: Pushed)
    ensures p.row.reference == m.reference && p.row.price == m.price && p.row.odooQty == m.quantity
    ensures p.row.sentQty == Clamp(m.quantity)
    ensures dryRun <==> p.row.status == Simulated
    ensures dryRun ==> p.calls == []
  {
    var sent := if m.quantity < 0 then 0 else m.quantity;
    if dryRun then Pushed(CronRow(m.reference, m.price, m.quantity, sent, Simulated), [])
    else
      var r := PS.SyncProductFromOdoo(sf, SyncDataOf(m));
      Pushed(CronRow(m.reference, m.price, m.quantity, sent, if r.value then Updated else Failed), r.calls)
  }

  /** Outside a dry run, the calls and the status of an iteration are those of syncProductFromOdoo. */
  lemma PushOneSyncs(sf: PS.Storefront, m: OdooClient.Mapped)
    ensures var p := PushOne(sf, false, m);
      var r := PS.SyncProductFromOdoo(sf, SyncDataOf(m));
      && p.calls == r.calls
      && (p.row.status == Updated <==> r.value)
      && (p.row.status == Failed <==> !r.value)
  {
  }

  /** The per-product step of the loop: `PushOne` with the storefront and mode fixed. */
  function Pusher(sf: PS.Storefront, dryRun: bool): OdooClient.Mapped -> Pushed {
    m => PushOne(sf, dryRun, m)
  }

  /** The rows of a loop of any per-product step, in product order. */
  function PushedRows(push: OdooClient.Mapped -> Pushed, ms: seq<OdooClient.Mapped>): seq<CronRow> {
    if ms == [] then [] else PushedRows(push, ms[..|ms| - 1]) + [push(ms[|ms| - 1]).row]
  }

  /** The calls of a loop of any per-product step, in the order they are made. */
  function PushedCalls(push: OdooClient.Mapped -> Pushed, ms: seq<OdooClient.Mapped>): seq<PS.ApiCall> {
    if ms == [] then [] else PushedCalls(push, ms[..|ms| - 1]) + push(ms[|ms| - 1]).calls
  }

  lemma PushSnoc(push: OdooClient.Mapped -> Pushed, ms: seq<OdooClient.Mapped>, m: OdooClient.Mapped)
    ensures PushedRows(push, ms + [m]) == PushedRows(push, ms) + [push(m).row]
    ensures PushedCalls(push, ms + [m]) == PushedCalls(push, ms) + push(m).calls
  {
    assert (ms + [m])[..|ms|] == ms;
  }

  /** Every product gets exactly one row, at its own position. */
  lemma {:induction false} OneRowPerProduct(push: OdooClient.Mapped -> Pushed, ms: seq<OdooClient.Mapped>)
    ensures |PushedRows(push, ms)| == |ms|
    ensures forall i :: 0 <= i < |ms| ==> PushedRows(push, ms)[i] == push(ms[i]).row
  {
    if ms != [] {
      var init := ms[..|ms| - 1];
      OneRowPerProduct(push, init);
      forall i | 0 <= i < |ms|
        ensures PushedRows(push, ms)[i] == push(ms[i]).row
      {
        if i < |init| {
          assert ms[i] == init[i];
        }
      }
    }
  }

  function PushRows(sf: PS.Storefront, dryRun: bool, ms: seq<OdooClient.Mapped>): seq<CronRow> {
    PushedRows(Pusher(sf, dryRun), ms)
  }

  function PushCalls(sf: PS.Storefront, dryRun: bool, ms: seq<OdooClient.Mapped>): seq<PS.ApiCall> {
    PushedCalls(Pusher(sf, dryRun), ms)
  }

  /** The rows whose status is Error. */
  function Failures(rows: seq<CronRow>): nat {
    if rows == [] then 0 else Failures(rows[..|rows| - 1]) + (if rows[|rows| - 1].status == Failed then 1 else 0)
  }

  lemma FailuresSnoc(rows: seq<CronRow>, r: CronRow)
    ensures Failures(rows + [r]) == Failures(rows) + (if r.status == Failed then 1 else 0)
  {
    assert (rows + [r])[..|rows|] == rows;
  }

  /** One more product extends the rows, the calls and the error count of a loop by its own. */
  lemma PushStep(push: OdooClient.Mapped -> Pushed, ms: seq<OdooClient.Mapped>, m: OdooClient.Mapped,
                 rows: seq<CronRow>, calls: seq<PS.ApiCall>, row: CronRow, made: seq<PS.ApiCall>)
    requires rows == PushedRows(push, ms) && calls == PushedCalls(push, ms)
    requires push(m) == Pushed(row, made)
    ensures rows + [row] == PushedRows(push, ms + [m]) && calls + made == PushedCalls(push, ms + [m])
    ensures Failures(rows + [row]) == Failures(rows) + (if row.status == Failed then 1 else 0)
  {
    PushSnoc(push, ms, m);
    FailuresSnoc(rows, row);
  }

  /** The body of the foreach for one product, exactly as `PushOne` specifies. */
  method PushProduct(sf: PS.Storefront, dryRun: bool, producto: OdooClient.Mapped)
    returns (row: CronRow, made: seq<PS.ApiCall>)
    ensures Pusher(sf, dryRun)(producto) == Pushed(row, made)
  {
    var cantidadEnviada := if producto.quantity < 0 then 0 else producto.quantity;
    made := [];
    if dryRun {
      row := CronRow(producto.reference, producto.price, producto.quantity, cantidadEnviada, Simulated);
    } else {
      // The product is sent with its quantity replaced by the clamped one.
      var resultado := PS.SyncProductFromOdoo(sf, SyncDataOf(producto));
      made := resultado.calls;
      var estado := if resultado.value then Updated else Failed;
      row := CronRow(producto.reference, producto.price, producto.quantity, cantidadEnviada, estado);
    }
  }

  /** The foreach over the valid products: rows in order, tally of successes and errors, and the calls made. */
  method PushProducts(sf: PS.Storefront, dryRun: bool, productos: seq<OdooClient.Mapped>)
    returns (rows: seq<CronRow>, tally: Tally, calls: seq<PS.ApiCall>)
    ensures rows == PushRows(sf, dryRun, productos)
    ensures calls == PushCalls(sf, dryRun, productos)
    ensures tally.failed == Failures(rows) && tally.succeeded + tally.failed == |rows|
  {
    var push := Pusher(sf, dryRun);
    var exitos, errores := 0, 0;
    rows, calls := [], [];
    for i := 0 to |productos|
      invariant rows == PushedRows(push, productos[..i])
      invariant calls == PushedCalls(push, productos[..i])
      invariant errores == Failures(rows) && exitos + errores == |rows|
    {
      var producto := productos[i];
      Seqs.PrefixSnoc(productos, i);
      var row, made := PushProduct(sf, dryRun, producto);
      PushStep(push, productos[..i], producto, rows, calls, row, made);
      if row.status == Failed {
        errores := errores + 1;
      } else {
        exitos := exitos + 1;
      }
      rows := rows + [row];
      calls := calls + made;
    }
    assert productos[..|productos|] == productos;
    tally := Tally(exitos, errores);
  }

  /** A dry run makes no storefront call at all. */
  lemma {:induction false} DryRunCallsNothing(sf: PS.Storefront, ms: seq<OdooClient.Mapped>)
    ensures PushCalls(sf, true, ms) == []
    ensures Failures(PushRows(sf, true, ms)) == 0
  {
    if ms != [] {
      var init, m := ms[..|ms| - 1], ms[|ms| - 1];
      DryRunCallsNothing(sf, init);
      var p := PushOne(sf, true, m);
      assert PushCalls(sf, true, ms) == PushCalls(sf, true, init) + p.calls;
      assert PushRows(sf, true, ms) == PushRows(sf, true, init) + [p.row];
      FailuresSnoc(PushRows(sf, true, init), p.row);
    }
  }

  /** Every stock envelope the calls carry is well formed and sets a non-negative quantity. */
  predicate NonNegativeStock(calls: seq<PS.ApiCall>) {
    forall i :: 0 <= i < |calls| && calls[i].Patch? ==>
      PS.ReadQuantityEnvelope(calls[i].request.body).Some? && PS.ReadQuantityEnvelope(calls[i].request.body).value.2 >= 0
  }

  lemma NonNegativeStockAppend(a: seq<PS.ApiCall>, b: seq<PS.ApiCall>)
    requires NonNegativeStock(a) && NonNegativeStock(b)
    ensures NonNegativeStock(a + b)
  {
    forall i | 0 <= i < |a + b| && (a + b)[i].Patch?
      ensures PS.ReadQuantityEnvelope((a + b)[i].request.body).Some?
      ensures PS.ReadQuantityEnvelope((a + b)[i].request.body).value.2 >= 0
    {
      if i >= |a| {
        assert (a + b)[i] == b[i - |a|];
      }
    }
  }

  /** "Nunca enviar negativos": no quantity written to the storefront is negative, whatever Odoo holds. */
  lemma {:induction false} NeverSendsNegativeStock(sf: PS.Storefront, dryRun: bool, ms: seq<OdooClient.Mapped>)
    requires forall i :: 0 <= i < |ms| ==> !PhpEmpty(Some(ms[i].reference))
    ensures NonNegativeStock(PushCalls(sf, dryRun, ms))
  {
    if ms != [] {
      var init, m := ms[..|ms| - 1], ms[|ms| - 1];
      NeverSendsNegativeStock(sf, dryRun, init);
      var calls := PushOne(sf, dryRun, m).calls;
      assert PushCalls(sf, dryRun, ms) == PushCalls(sf, dryRun, init) + calls;
      if !dryRun {
        PushOneSyncs(sf, m);
        var d := SyncDataOf(m);
        assert PS.Complete(d);
        PS.SyncProductFromOdooSteps(sf, d);
        var r := PS.SyncProductFromOdoo(sf, d);
        forall i | 0 <= i < |calls| && calls[i].Patch?
          ensures PS.ReadQuantityEnvelope(calls[i].request.body).Some?
          ensures PS.ReadQuantityEnvelope(calls[i].request.body).value.2 >= 0
        {
          assert i == 3;
        }
      }
      NonNegativeStockAppend(PushCalls(sf, dryRun, init), calls);
    }
  }

  // ---------------------------------------------------------------------------
  // The whole run
  // ---------------------------------------------------------------------------

  /** The query-string parameters of the run. */
  datatype Query = Query(dryRun: Option<string>, forceRange: Option<string>, range: Option<string>)

  /** `time()`, `date('Y-m-d H:i:s', ·)` and `strtotime` of an absolute date. */
  datatype Clock = Clock(now: int, format: int -> string, parseTime: string -> Option<int>)

  /** `dry-run=1` and nothing else turns the dry run on. */
  predicate DryRun(q: Query) {
    q.dryRun == Some("1")
  }

  /** The cutoff date of the run, given the saved cursor. */
  function Desde(q: Query, clock: Clock, cursor: Option<string>): string {
    var s := LastSyncTimestamp(DryRun(q), q.forceRange == Some("1"), cursor, q.range.GetOr("1h"), clock.now, clock.parseTime);
    Cutoff(s, clock.format)
  }

  /** What the incremental fetch answers; a failed fetch is treated like an empty one. */
  function Modified(odoo: OdooClient.Odoo, desde: string): seq<OdooClient.OdooProduct> {
    OdooClient.GetModifiedProductsSince(odoo, desde).value.GetOr([])
  }

  /**
   * The whole cron run. `cursor` is the content of the cursor file (`None`
   * when it does not exist) and `cursorAfter` its content afterwards.
   */
  method RunCron(q: Query, clock: Clock, cursor: Option<string>, odoo: OdooClient.Odoo, sf: PS.Storefront)
    returns (cursorAfter: Option<string>, rows: seq<CronRow>, tally: Tally, calls: seq<PS.ApiCall>)
    ensures var raw := Modified(odoo, Desde(q, clock, cursor));
      && (raw == [] ==> cursorAfter == cursor && rows == [] && tally == Tally(0, 0) && calls == [])
      && (raw != [] ==> cursorAfter == if DryRun(q) then cursor else Some(clock.format(clock.now)))
      && rows == PushRows(sf, DryRun(q), ValidProducts(raw))
      && calls == PushCalls(sf, DryRun(q), ValidProducts(raw))
    ensures tally.failed == Failures(rows) && tally.succeeded + tally.failed == |rows|
    ensures DryRun(q) ==> cursorAfter == cursor && calls == [] && tally.failed == 0
    ensures NonNegativeStock(calls)
  {
    var dryRun := DryRun(q);
    var desde := Desde(q, clock, cursor);
    var ahora := clock.format(clock.now);
    var raw := Modified(odoo, desde);
    if |raw| == 0 {
      return cursor, [], Tally(0, 0), [];
    }
    var productos := ValidProducts(raw);
    rows, tally, calls := PushProducts(sf, dryRun, productos);
    NeverSendsNegativeStock(sf, dryRun, productos);
    if dryRun {
      DryRunCallsNothing(sf, productos);
    }
    cursorAfter := cursor;
    if !dryRun {
      cursorAfter := Some(ahora);
    }
  }

  /**
   * A real run resumes where the previous one stopped: when the saved
   * `date()` string reads back as the time it was written, the next run
   * without dry-run or force-range, at that moment or later, queries from
   * exactly that string.
   */
  lemma CursorResumesNextRun(q: Query, clock: Clock, saved: int)
    requires !DryRun(q) && q.forceRange != Some("1")
    requires saved <= clock.now && saved != 0
    requires Trim(clock.format(saved)) == clock.format(saved)
    requires clock.parseTime(clock.format(saved)) == Some(saved)
    ensures Desde(q, clock, Some(clock.format(saved))) == clock.format(saved)
  {
    var stamp := clock.format(saved);
    var s := LastSyncTimestamp(false, false, Some(stamp), q.range.GetOr("1h"), clock.now, clock.parseTime);
    assert s == Resumed(stamp);
  }

}

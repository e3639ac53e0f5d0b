/** The invoicing-provider client (services/smartbill.js): translation of a
    storefront order into a document request, the request paths, the reading of
    the provider's replies, and the stock map. The provider itself is an oracle
    answering each request with a response body or a thrown error. */
module SmartBill {
  import opened Wrappers
  import opened Js
  import opened Orders

  /** Variables read once when the module loads, with their defaults. */
  datatype Config = Config(companyVatCode: Value, series: Value, defaultWarehouse: Value)

  function ConfigOf(env: Env): Config {
    Config(
      EnvValue(env, "SMARTBILL_CIF"),
      Default(EnvValue(env, "SMARTBILL_SERIE"), Str("SB")),
      Default(EnvValue(env, "SMARTBILL_DEFAULT_WAREHOUSE"), Str("Magazin 2")))
  }

  datatype Client = Client(
    name: Value,
    email: Value,
    isVATPayer: bool,
    vatCode: Value,
    address: string,
    city: Value,
    county: Value,
    country: Value)

  datatype Product = Product(
    name: Value,
    code: Value,
    measuringUnitName: string,
    currency: Value,
    isDiscount: bool,
    quantity: int,
    price: Number,
    vatRate: int,
    warehouseName: Value)

  /** The body of a document request: an invoice or proforma, or a credit note. */
  datatype DocumentBody =
    | InvoiceBody(
        companyVatCode: Value, seriesName: Value, issueDate: string, isDraft: bool, sendEmail: bool,
        warehouseName: Value, client: Client, products: seq<Product>, observations: string)
    | CreditNoteBody(
        companyVatCode: Value, seriesName: Value, issueDate: string,
        warehouseName: Value, client: Client, products: seq<Product>, observations: string)

  /** A request sent to the provider. */
  datatype Request =
    | GetSeries(vatCode: Value)
    | GetWarehouses(vatCode: Value)
    | PostDocument(path: string, body: DocumentBody)
    | PostStock(vatCode: Value, codes: seq<Value>)

  /** The provider: the response body it returns for a request, or what the call throws. */
  type Provider = Request -> Result<Value, Thrown>

  datatype DocResult = DocResult(number: Value, pdfUrl: Value)

  // ---------------------------------------------------------------- client block

  const NoCustomer := Customer(Undefined, Undefined, Undefined)
  const NoAddress := ShippingAddress(Undefined, Undefined, Undefined, Undefined, Undefined, Undefined, Undefined)

  /** The order's customer, or one with no fields. */
  function CustomerOf(order: Order): Customer {
    if order.customer.Some? then order.customer.value else NoCustomer
  }

  /** The order's shipping address, or one with no fields. */
  function AddressOf(order: Order): ShippingAddress {
    if order.shippingAddress.Some? then order.shippingAddress.value else NoAddress
  }

  /** One name part: the customer's, else the shipping address's, else empty. */
  function NamePart(fromCustomer: Value, fromAddress: Value): string {
    ToStr(Or(Or(fromCustomer, fromAddress), Str("")))
  }

  /** The two name parts joined by a space, trimmed. */
  function FullName(order: Order): string {
    var c := CustomerOf(order);
    var s := AddressOf(order);
    Trim(NamePart(c.firstName, s.firstName) + " " + NamePart(c.lastName, s.lastName))
  }

  function BuildClient(order: Order): (c: Client)
    ensures c.name == if FullName(order) != "" then Str(FullName(order))
                      else if Truthy(CustomerOf(order).email) then CustomerOf(order).email
                      else Str("Client Shopify")
    ensures Truthy(c.name)
    ensures c.email == CustomerOf(order).email
    ensures !c.isVATPayer && c.vatCode == Null
    ensures c.address == AddressLine(AddressOf(order))
    ensures c.city == AddressOf(order).city && c.county == AddressOf(order).province
    ensures c.country == AddressOf(order).countryCode
  {
    var cu := CustomerOf(order);
    var s := AddressOf(order);
    var full := FullName(order);
    Client(
      if full != "" then Str(full) else Or(cu.email, Str("Client Shopify")),
      cu.email, false, Null,
      AddressLine(s),
      s.city, s.province, s.countryCode)
  }

  /** The address lines that are set, joined by a comma and a space. */
  function AddressLine(s: ShippingAddress): string {
    Join(Strings(FilterTruthy([s.address1, s.address2])), ", ")
  }

  /** `String(x)` of every element, as `join` prints them. */
  function Strings(xs: seq<Value>): seq<string> {
    if xs == [] then [] else [ToStr(xs[0])] + Strings(xs[1..])
  }

  /** The address is the non-empty address lines joined with ", ". */
  lemma AddressJoinsPresentLines(s: ShippingAddress, a1: string, a2: string)
    ensures s.address1 == Str(a1) && s.address2 == Str(a2) && a1 != "" && a2 != "" ==>
      AddressLine(s) == a1 + ", " + a2
    ensures s.address1 == Str(a1) && a1 != "" && !Truthy(s.address2) ==> AddressLine(s) == a1
    ensures s.address2 == Str(a2) && a2 != "" && !Truthy(s.address1) ==> AddressLine(s) == a2
    ensures !Truthy(s.address1) && !Truthy(s.address2) ==> AddressLine(s) == ""
  {
    var xs := [s.address1, s.address2];
    assert xs[1..] == [s.address2] && [s.address2][1..] == [];
    var f := FilterTruthy(xs);
    assert FilterTruthy([s.address2]) == (if Truthy(s.address2) then [s.address2] else []) + FilterTruthy([]);
    assert f == (if Truthy(s.address1) then [s.address1] else []) + FilterTruthy([s.address2]);
    if Truthy(s.address1) && Truthy(s.address2) {
      assert f == [s.address1, s.address2];
      assert Strings(f)[1..] == Strings([s.address2]);
      var ps := [ToStr(s.address1), ToStr(s.address2)];
      assert Strings(f) == ps;
      assert ps[1..] == [ToStr(s.address2)];
      assert Join(ps, ", ") == ToStr(s.address1) + ", " + ToStr(s.address2);
    } else if Truthy(s.address1) {
      assert f == [s.address1];
      assert Strings(f) == [ToStr(s.address1)];
    } else if Truthy(s.address2) {
      assert f == [s.address2];
      assert Strings(f) == [ToStr(s.address2)];
    }
  }

  /** A customer whose first and last names are non-empty strings without
      surrounding white space is billed under exactly "first last". */
  lemma ClientNamedAfterCustomer(order: Order, first: string, last: string)
    requires order.customer.Some?
    requires order.customer.value.firstName == Str(first) && order.customer.value.lastName == Str(last)
    requires first != "" && !IsSpace(first[0]) && !IsSpace(first[|first| - 1])
    requires last != "" && !IsSpace(last[0]) && !IsSpace(last[|last| - 1])
    ensures BuildClient(order).name == Str(first + " " + last)
  {
    var c := order.customer.value;
    assert NamePart(c.firstName, AddressOf(order).firstName) == first;
    assert NamePart(c.lastName, AddressOf(order).lastName) == last;
    var s := first + " " + last;
    assert s[0] == first[0] && s[|s| - 1] == last[|last| - 1];
    TrimKeepsUnpadded(s);
    assert FullName(order) == s;
  }

  /** The e-mail (else the literal label) is used exactly when both name parts
      are blank, whatever their source. */
  lemma ClientNameFallsBack(order: Order)
    ensures var c := CustomerOf(order);
      var s := AddressOf(order);
      var blank := AllSpace(NamePart(c.firstName, s.firstName)) && AllSpace(NamePart(c.lastName, s.lastName));
      && (FullName(order) == "" <==> blank)
      && (blank ==> BuildClient(order).name == Or(c.email, Str("Client Shopify")))
  {
    var c := CustomerOf(order);
    var s := AddressOf(order);
    var a := NamePart(c.firstName, s.firstName);
    var b := NamePart(c.lastName, s.lastName);
    TrimEmptyIffBlank(a + " " + b);
    AllSpaceAroundSpace(a, b);
  }

  // ---------------------------------------------------------------- product lines

  /** The order's line items, none when absent. */
  function LineItemsOf(order: Order): seq<LineItem> {
    if order.lineItems.Some? then order.lineItems.value else []
  }

  function ToProduct(li: LineItem, currency: Value, warehouse: Value): Product {
    Product(li.title, Or(li.sku, Str(ToStr(li.variantId))), "buc", currency, false,
            li.quantity, ToNumber(li.price), 19, warehouse)
  }

  /** One product per line item, in order; an order without line items gives none. */
  function BuildProducts(order: Order, warehouse: Value): (ps: seq<Product>)
    ensures |ps| == |LineItemsOf(order)|
    ensures order.lineItems.None? ==> ps == []
    ensures forall i :: 0 <= i < |ps| ==>
      var li := LineItemsOf(order)[i];
      && ps[i].name == li.title
      && ps[i].code == (if Truthy(li.sku) then li.sku else Str(ToStr(li.variantId)))
      && ps[i].measuringUnitName == "buc" && ps[i].vatRate == 19 && !ps[i].isDiscount
      && ps[i].currency == (if Truthy(order.currency) then order.currency else Str("RON"))
      && ps[i].quantity == li.quantity && ps[i].price == ToNumber(li.price)
      && ps[i].warehouseName == warehouse
  {
    var items := LineItemsOf(order);
    var currency := Or(order.currency, Str("RON"));
    seq(|items|, i requires 0 <= i < |items| => ToProduct(items[i], currency, warehouse))
  }

  function Abs(n: int): int {
    if n < 0 then -n else n
  }

  /** The credit-note lines: `-Math.abs(quantity)` on every invoice line. */
  function CreditProducts(ps: seq<Product>): seq<Product> {
    seq(|ps|, i requires 0 <= i < |ps| => ps[i].(quantity := -Abs(ps[i].quantity)))
  }

  /** A credit note carries the invoice lines in the same order, each with a
      non-positive quantity of the same magnitude and every other field unchanged;
      flipping again changes nothing. */
  lemma CreditMirrorsInvoice(order: Order, warehouse: Value)
    ensures var inv := BuildProducts(order, warehouse);
      var cr := CreditProducts(inv);
      && |cr| == |inv|
      && (forall i :: 0 <= i < |cr| ==>
            cr[i].quantity <= 0 && Abs(cr[i].quantity) == Abs(inv[i].quantity)
            && cr[i].(quantity := inv[i].quantity) == inv[i])
      && CreditProducts(cr) == cr
  {
  }

  // ---------------------------------------------------------------- document requests

  /** The proforma endpoint for type "proforma", the invoice endpoint otherwise. */
  function DocPath(docType: Value): string {
    if docType == Str("proforma") then "/api/proforma" else "/api/invoice"
  }

  function Observation(order: Order, action: string, detail: Value): string {
    "Shopify " + ToStr(Or(order.name, order.id)) + " \U{2022} " + action + " \U{2022} " + ToStr(detail)
  }

  /** The document number and PDF link read from the provider's reply; reading a
      field of a missing reply throws. */
  function DocResultOf(data: Value): (r: Result<DocResult, Thrown>)
    ensures r.Err? <==> IsNullish(data)
    ensures r.Ok? ==>
      && r.value.number == (if Truthy(Prop(data, "number")) then Prop(data, "number") else Prop(data, "numberString"))
      && r.value.pdfUrl == (if Truthy(Prop(data, "pdfUrl")) then Prop(data, "pdfUrl") else Null)
  {
    if IsNullish(data) then Err(TypeError)
    else Ok(DocResult(Or(Prop(data, "number"), Prop(data, "numberString")), Or(Prop(data, "pdfUrl"), Null)))
  }

  /** The arguments of `createDocFromOrder`; `Undefined` is an omitted argument. */
  datatype DocArgs = DocArgs(order: Order, docType: Value, warehouse: Value, series: Value, sendEmail: Value)

  function InvoiceRequest(cfg: Config, issueDate: string, args: DocArgs): Request {
    var docType := Default(args.docType, Str("invoice"));
    var w := Default(args.warehouse, cfg.defaultWarehouse);
    var body := InvoiceBody(
      cfg.companyVatCode, Default(args.series, cfg.series), issueDate, false,
      Truthy(Default(args.sendEmail, Bool(true))), w, BuildClient(args.order),
      BuildProducts(args.order, w), Observation(args.order, ToStr(docType), w));
    PostDocument(DocPath(docType), body)
  }

  /** `createDocFromOrder`: one request to the invoice or proforma endpoint. */
  function CreateDocFromOrder(sb: Provider, cfg: Config, issueDate: string, args: DocArgs): (st: Step<Request, DocResult>)
    ensures |st.requests| == 1 && st.requests[0].PostDocument? && st.requests[0].body.InvoiceBody?
    ensures var docType := Default(args.docType, Str("invoice"));
      var w := Default(args.warehouse, cfg.defaultWarehouse);
      var req := st.requests[0];
      && (req.path == "/api/proforma" <==> docType == Str("proforma"))
      && (req.path == "/api/proforma" || req.path == "/api/invoice")
      && req.body.companyVatCode == cfg.companyVatCode
      && !req.body.isDraft
      && req.body.sendEmail == Truthy(Default(args.sendEmail, Bool(true)))
      && req.body.seriesName == Default(args.series, cfg.series)
      && req.body.issueDate == issueDate
      && req.body.warehouseName == w
      && req.body.client == BuildClient(args.order)
      && req.body.products == BuildProducts(args.order, w)
      && req.body.observations == Observation(args.order, ToStr(docType), w)
    ensures st.result == match sb(st.requests[0]) case Err(e) => Err(e) case Ok(data) => DocResultOf(data)
  {
    var req := InvoiceRequest(cfg, issueDate, args);
    Step([req], match sb(req) case Err(e) => Err(e) case Ok(data) => DocResultOf(data))
  }

  /** The arguments of `createCreditFromOrder`; `Undefined` is an omitted argument. */
  datatype CreditArgs = CreditArgs(order: Order, warehouse: Value, series: Value, reason: Value)

  function CreditRequest(cfg: Config, issueDate: string, args: CreditArgs): Request {
    var w := Default(args.warehouse, cfg.defaultWarehouse);
    var reason := Default(args.reason, Str("Return"));
    var body := CreditNoteBody(
      cfg.companyVatCode, Default(args.series, cfg.series), issueDate, w, BuildClient(args.order),
      CreditProducts(BuildProducts(args.order, w)), Observation(args.order, "credit", reason));
    PostDocument("/api/creditnote", body)
  }

  /** `createCreditFromOrder`: one request to the credit-note endpoint whose lines
      are the invoice lines with non-positive quantities. */
  function CreateCreditFromOrder(sb: Provider, cfg: Config, issueDate: string, args: CreditArgs): (st: Step<Request, DocResult>)
    ensures |st.requests| == 1 && st.requests[0].PostDocument? && st.requests[0].body.CreditNoteBody?
    ensures var w := Default(args.warehouse, cfg.defaultWarehouse);
      var req := st.requests[0];
      && req.path == "/api/creditnote"
      && req.body.companyVatCode == cfg.companyVatCode
      && req.body.seriesName == Default(args.series, cfg.series)
      && req.body.issueDate == issueDate
      && req.body.warehouseName == w
      && req.body.client == BuildClient(args.order)
      && req.body.products == CreditProducts(BuildProducts(args.order, w))
      && req.body.observations == Observation(args.order, "credit", Default(args.reason, Str("Return")))
    ensures st.result == match sb(st.requests[0]) case Err(e) => Err(e) case Ok(data) => DocResultOf(data)
  {
    var req := CreditRequest(cfg, issueDate, args);
    Step([req], match sb(req) case Err(e) => Err(e) case Ok(data) => DocResultOf(data))
  }

  // ---------------------------------------------------------------- reference lists

  /** The list inside a reply envelope: a truthy `items`, else the body itself,
      else empty; whichever is chosen must be an array. */
  function ListOf(data: Value): (r: Result<seq<Value>, Thrown>)
    ensures IsNullish(data) ==> r == Err(TypeError)
    ensures data.Obj? && Prop(data, "items").Arr? ==> r == Ok(Prop(data, "items").elems)
    ensures data.Obj? && !Truthy(Prop(data, "items")) ==> r == Err(TypeError)
    ensures data.Arr? ==> r == Ok(data.elems)
    ensures !IsNullish(data) && !Truthy(data) ==> r == Ok([])
    ensures r.Ok? ==> data.Arr? || !Truthy(data) || Prop(data, "items").Arr?
  {
    if IsNullish(data) then Err(TypeError)
    else
      match Or(Or(Prop(data, "items"), data), Arr([]))
      case Arr(xs) => Ok(xs)
      case _ => Err(TypeError)
  }

  /** The name of every entry, keeping only the truthy ones; reading a field of a
      `null` entry throws. */
  function Names(list: seq<Value>, f: Value -> Value): (r: Result<seq<Value>, Thrown>)
    ensures r.Err? <==> exists i :: 0 <= i < |list| && IsNullish(list[i])
  {
    if exists i :: 0 <= i < |list| && IsNullish(list[i]) then Err(TypeError)
    else Ok(FilterTruthy(Mapped(list, f)))
  }

  /** Every name returned is truthy and the name of some entry, and a truthy name
      occurs as often as the entries bearing it; `NamesKeepOrder` gives the order. */
  lemma NamesMeaning(list: seq<Value>, f: Value -> Value, v: Value)
    requires Names(list, f).Ok?
    ensures var names := Names(list, f).value;
      && (forall k :: 0 <= k < |names| ==> Truthy(names[k]) && exists i :: 0 <= i < |list| && names[k] == f(list[i]))
      && multiset(names)[v] == if Truthy(v) then multiset(Mapped(list, f))[v] else 0
  {
    var names := Names(list, f).value;
    assert forall k :: 0 <= k < |names| ==> names[k] in Mapped(list, f);
    FilterTruthyCounts(Mapped(list, f), v);
  }

  /** `f` of every entry, in order. */
  function Mapped(list: seq<Value>, f: Value -> Value): (r: seq<Value>)
    ensures |r| == |list| && forall i :: 0 <= i < |list| ==> r[i] == f(list[i])
  {
    seq(|list|, i requires 0 <= i < |list| => f(list[i]))
  }

  function SeriesName(x: Value): Value {
    Or(Prop(x, "name"), Prop(x, "seriesName"))
  }

  function WarehouseName(x: Value): Value {
    Prop(x, "name")
  }

  function ParseNames(resp: Result<Value, Thrown>, f: Value -> Value): Result<seq<Value>, Thrown> {
    match resp
    case Err(e) => Err(e)
    case Ok(data) =>
      match ListOf(data)
      case Err(e) => Err(e)
      case Ok(list) => Names(list, f)
  }

  /** `fetchSeries`: one request; series names are `name`, else `seriesName`. */
  function FetchSeries(sb: Provider, cfg: Config): (st: Step<Request, seq<Value>>)
    ensures st.requests == [GetSeries(cfg.companyVatCode)]
    ensures st.result.Ok? ==> forall i :: 0 <= i < |st.result.value| ==> Truthy(st.result.value[i])
    ensures var resp := sb(GetSeries(cfg.companyVatCode));
      && (resp.Err? ==> st.result == Err(resp.error))
      && (resp.Ok? && ListOf(resp.value).Err? ==> st.result == Err(ListOf(resp.value).error))
      && (resp.Ok? && ListOf(resp.value).Ok? ==> st.result == Names(ListOf(resp.value).value, SeriesName))
  {
    var req := GetSeries(cfg.companyVatCode);
    Step([req], ParseNames(sb(req), SeriesName))
  }

  /** `fetchWarehouses`: one request; warehouse names are `name`. */
  function FetchWarehouses(sb: Provider, cfg: Config): (st: Step<Request, seq<Value>>)
    ensures st.requests == [GetWarehouses(cfg.companyVatCode)]
    ensures st.result.Ok? ==> forall i :: 0 <= i < |st.result.value| ==> Truthy(st.result.value[i])
    ensures var resp := sb(GetWarehouses(cfg.companyVatCode));
      && (resp.Err? ==> st.result == Err(resp.error))
      && (resp.Ok? && ListOf(resp.value).Err? ==> st.result == Err(ListOf(resp.value).error))
      && (resp.Ok? && ListOf(resp.value).Ok? ==> st.result == Names(ListOf(resp.value).value, WarehouseName))
  {
    var req := GetWarehouses(cfg.companyVatCode);
    Step([req], ParseNames(sb(req), WarehouseName))
  }

  /** Entries whose name is truthy come out as that name, the others are dropped,
      and the order of the list is kept. */
  lemma {:induction false} NamesKeepOrder(list: seq<Value>, f: Value -> Value, more: seq<Value>)
    requires forall i :: 0 <= i < |list| ==> !IsNullish(list[i])
    requires forall i :: 0 <= i < |more| ==> !IsNullish(more[i])
    ensures Names(list + more, f).Ok?
    ensures Names(list + more, f).value == Names(list, f).value + Names(more, f).value
    ensures (forall i :: 0 <= i < |list| ==> Truthy(f(list[i]))) ==>
      Names(list, f).value == Mapped(list, f)
  {
    var all := list + more;
    forall i | 0 <= i < |all| ensures !IsNullish(all[i]) {
      if i >= |list| { assert all[i] == more[i - |list|]; }
    }
    var a := Mapped(list, f);
    var b := Mapped(more, f);
    assert Mapped(all, f) == a + b;
    FilterTruthyAppend(a, b);
    if forall i :: 0 <= i < |list| ==> Truthy(f(list[i])) {
      FilterKeepsAllTruthy(a);
    }
  }

  lemma {:induction false} FilterKeepsAllTruthy(xs: seq<Value>)
    requires forall i :: 0 <= i < |xs| ==> Truthy(xs[i])
    ensures FilterTruthy(xs) == xs
  {
    if xs != [] {
      FilterKeepsAllTruthy(xs[1..]);
    }
  }

  // ---------------------------------------------------------------- stock map

  /** One property of the stock object: a product code and its quantity. The
      entries are kept in the order their codes were first added. */
  datatype Entry = Entry(code: string, stock: Number)

  function Lookup(es: seq<Entry>, code: string): Option<Number> {
    if es == [] then None
    else if es[0].code == code then Some(es[0].stock)
    else Lookup(es[1..], code)
  }

  /** No code occurs twice. */
  predicate Distinct(es: seq<Entry>) {
    forall i, j :: 0 <= i < j < |es| ==> es[i].code != es[j].code
  }

  /** Stores `stock` under `code`: overwrites the value in place, or appends a new entry. */
  function Put(es: seq<Entry>, code: string, stock: Number): seq<Entry> {
    if es == [] then [Entry(code, stock)]
    else if es[0].code == code then [Entry(code, stock)] + es[1..]
    else [es[0]] + Put(es[1..], code, stock)
  }

  /** After `out[code] = stock` that code reads `stock` and every other code reads as before. */
  lemma {:induction false} PutLookup(es: seq<Entry>, code: string, stock: Number, other: string)
    ensures Lookup(Put(es, code, stock), other) == if other == code then Some(stock) else Lookup(es, other)
  {
    if es != [] && es[0].code != code {
      PutLookup(es[1..], code, stock, other);
    }
  }

  lemma {:induction false} LookupMembers(es: seq<Entry>, code: string)
    ensures Lookup(es, code).Some? <==> exists i :: 0 <= i < |es| && es[i].code == code
  {
    if es != [] {
      LookupMembers(es[1..], code);
      if Lookup(es[1..], code).Some? {
        var i :| 0 <= i < |es[1..]| && es[1..][i].code == code;
        assert es[i + 1].code == code;
      }
      if es[0].code != code && exists i :: 0 <= i < |es| && es[i].code == code {
        var i :| 0 <= i < |es| && es[i].code == code;
        assert es[1..][i - 1].code == code;
      }
    }
  }

  lemma {:induction false} PutDistinct(es: seq<Entry>, code: string, stock: Number)
    requires Distinct(es)
    ensures Distinct(Put(es, code, stock))
  {
    if es != [] && es[0].code != code {
      PutDistinct(es[1..], code, stock);
      var r := Put(es[1..], code, stock);
      forall k | 0 <= k < |r| ensures r[k].code != es[0].code {
        LookupMembers(r, es[0].code);
        PutLookup(es[1..], code, stock, es[0].code);
        LookupMembers(es[1..], es[0].code);
        if r[k].code == es[0].code {
          assert false;
        }
      }
    }
  }

  function StockCode(it: Value): string {
    ToStr(Prop(it, "code"))
  }

  /** The reported quantity as a number, 0 when it is null or missing. */
  function StockQuantity(it: Value): Number {
    ToNumber(Coalesce(Prop(it, "stock"), Num(0)))
  }

  /** The one key under which assigning a number creates no property: it names the
      object's prototype, whose setter ignores anything but an object. */
  const ProtoKey := "__proto__"

  /** Stores each listed code's quantity in turn, starting from `out`; a `null`
      entry throws. */
  function StockMapFrom(out: seq<Entry>, list: seq<Value>): Result<seq<Entry>, Thrown>
    decreases |list|
  {
    if list == [] then Ok(out)
    else if IsNullish(list[0]) then Err(TypeError)
    else if StockCode(list[0]) == ProtoKey then StockMapFrom(out, list[1..])
    else StockMapFrom(Put(out, StockCode(list[0]), StockQuantity(list[0])), list[1..])
  }

  function StockMap(list: seq<Value>): Result<seq<Entry>, Thrown> {
    StockMapFrom([], list)
  }

  /** The last index of `list` whose code is `code`. */
  predicate LastWithCode(list: seq<Value>, j: int, code: string) {
    0 <= j < |list| && StockCode(list[j]) == code
    && forall k :: j < k < |list| ==> StockCode(list[k]) != code
  }

  lemma {:induction false} StockMapFromOk(out: seq<Entry>, list: seq<Value>)
    ensures StockMapFrom(out, list).Ok? <==> forall i :: 0 <= i < |list| ==> !IsNullish(list[i])
    decreases |list|
  {
    if list != [] && !IsNullish(list[0]) {
      if StockCode(list[0]) == ProtoKey {
        StockMapFromOk(out, list[1..]);
      } else {
        StockMapFromOk(Put(out, StockCode(list[0]), StockQuantity(list[0])), list[1..]);
      }
      assert forall i :: 0 < i < |list| ==> list[i] == list[1..][i - 1];
    }
  }

  lemma {:induction false} StockMapFromDistinct(out: seq<Entry>, list: seq<Value>)
    requires Distinct(out) && StockMapFrom(out, list).Ok?
    ensures Distinct(StockMapFrom(out, list).value)
    decreases |list|
  {
    if list != [] && StockCode(list[0]) == ProtoKey {
      StockMapFromDistinct(out, list[1..]);
    } else if list != [] {
      PutDistinct(out, StockCode(list[0]), StockQuantity(list[0]));
      StockMapFromDistinct(Put(out, StockCode(list[0]), StockQuantity(list[0])), list[1..]);
    }
  }

  lemma {:induction false} StockMapFromUntouched(out: seq<Entry>, list: seq<Value>, code: string)
    requires StockMapFrom(out, list).Ok?
    requires forall i :: 0 <= i < |list| ==> StockCode(list[i]) != code || code == ProtoKey
    ensures Lookup(StockMapFrom(out, list).value, code) == Lookup(out, code)
    decreases |list|
  {
    if list != [] {
      assert forall i :: 0 <= i < |list[1..]| ==> list[1..][i] == list[i + 1];
      if StockCode(list[0]) == ProtoKey {
        StockMapFromUntouched(out, list[1..], code);
      } else {
        PutLookup(out, StockCode(list[0]), StockQuantity(list[0]), code);
        StockMapFromUntouched(Put(out, StockCode(list[0]), StockQuantity(list[0])), list[1..], code);
      }
    }
  }

  lemma {:induction false} StockMapFromLast(out: seq<Entry>, list: seq<Value>, code: string, j: int)
    requires StockMapFrom(out, list).Ok?
    requires LastWithCode(list, j, code) && code != ProtoKey
    ensures Lookup(StockMapFrom(out, list).value, code) == Some(StockQuantity(list[j]))
    decreases |list|
  {
    var out' := if StockCode(list[0]) == ProtoKey then out else Put(out, StockCode(list[0]), StockQuantity(list[0]));
    if j > 0 {
      assert LastWithCode(list[1..], j - 1, code);
      StockMapFromLast(out', list[1..], code, j - 1);
    } else {
      PutLookup(out, StockCode(list[0]), StockQuantity(list[0]), code);
      assert forall i :: 0 <= i < |list[1..]| ==> list[1..][i] == list[i + 1];
      StockMapFromUntouched(out', list[1..], code);
    }
  }

  /** The stock map read from the provider's list: it exists exactly when no entry
      is `null`; its codes are exactly the codes the list mentions (requested or
      not), except `__proto__`, and each once; a code that occurs several times
      holds the quantity of its last occurrence; a code the list never mentions is
      absent rather than 0. */
  lemma StockMapContents(list: seq<Value>, code: string)
    ensures StockMap(list).Ok? <==> forall i :: 0 <= i < |list| ==> !IsNullish(list[i])
    ensures StockMap(list).Ok? ==>
      var es := StockMap(list).value;
      && Distinct(es)
      && (Lookup(es, code).Some? <==> code != ProtoKey && exists i :: 0 <= i < |list| && StockCode(list[i]) == code)
      && (code != ProtoKey ==>
            forall j :: LastWithCode(list, j, code) ==> Lookup(es, code) == Some(StockQuantity(list[j])))
  {
    StockMapFromOk([], list);
    if StockMap(list).Ok? {
      StockMapFromDistinct([], list);
      if code != ProtoKey {
        forall j | LastWithCode(list, j, code)
          ensures Lookup(StockMap(list).value, code) == Some(StockQuantity(list[j]))
        {
          StockMapFromLast([], list, code, j);
        }
      }
      if code == ProtoKey || !exists i :: 0 <= i < |list| && StockCode(list[i]) == code {
        StockMapFromUntouched([], list, code);
      }
    }
    if StockMap(list).Ok? && code != ProtoKey && exists i :: 0 <= i < |list| && StockCode(list[i]) == code {
      var i :| 0 <= i < |list| && StockCode(list[i]) == code;
      var j := LastIndexFrom(list, i, code);
      StockMapFromLast([], list, code, j);
    }
  }

  /** The last index at or after `i` whose code is `code`. */
  function LastIndexFrom(list: seq<Value>, i: nat, code: string): (j: nat)
    requires i < |list| && StockCode(list[i]) == code
    ensures i <= j < |list| && LastWithCode(list, j, code)
    decreases |list| - i
  {
    if exists k :: i < k < |list| && StockCode(list[k]) == code then
      var k :| i < k < |list| && StockCode(list[k]) == code;
      LastIndexFrom(list, k, code)
    else i
  }

  /** A quantity reported as `null` or left out reads as 0. */
  lemma StockQuantityDefaults(it: Value, n: int)
    ensures IsNullish(Prop(it, "stock")) ==> StockQuantity(it) == Finite(0)
    ensures Prop(it, "stock") == Num(n) ==> StockQuantity(it) == Finite(n)
  {
  }

  /** `fetchStocksBySKUs` as a specification: one request, then the stock map. */
  function StocksBySkus(sb: Provider, cfg: Config, skus: seq<Value>): Step<Request, seq<Entry>> {
    var req := PostStock(cfg.companyVatCode, skus);
    Step([req], match sb(req)
                case Err(e) => Err(e)
                case Ok(data) => match ListOf(data) case Err(e) => Err(e) case Ok(list) => StockMap(list))
  }

  /** `fetchStocksBySKUs`: posts the codes and fills the stock object entry by entry. */
  method FetchStocksBySkus(sb: Provider, cfg: Config, skus: seq<Value>) returns (st: Step<Request, seq<Entry>>)
    ensures st == StocksBySkus(sb, cfg, skus)
  {
    var req := PostStock(cfg.companyVatCode, skus);
    var resp := sb(req);
    if resp.Err? {
      return Step([req], Err(resp.error));
    }
    var parsed := ListOf(resp.value);
    if parsed.Err? {
      return Step([req], Err(parsed.error));
    }
    var list := parsed.value;
    var out: seq<Entry> := [];
    var i := 0;
    while i < |list|
      invariant 0 <= i <= |list|
      invariant StockMapFrom(out, list[i..]) == StockMap(list)
    {
      assert list[i..][0] == list[i] && list[i..][1..] == list[i + 1..];
      if IsNullish(list[i]) {
        return Step([req], Err(TypeError));
      }
      if StockCode(list[i]) != ProtoKey {
        out := Put(out, StockCode(list[i]), StockQuantity(list[i]));
      }
      i := i + 1;
    }
    return Step([req], Ok(out));
  }
}

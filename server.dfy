/** The service's decision logic (server.js): the settings store, the settings
    layering every handler applies, the manual document and credit-note actions,
    the signed storefront webhook, and one pass of the stock-sync job. Each handler
    returns its reply together with every request it sent to either provider, in
    order. */
module Server {
  import opened Wrappers
  import opened Js
  import opened Orders
  import SmartBill
  import Shopify

  // ---------------------------------------------------------------- replies and calls

  datatype Reply = Json(status: int, body: Value) | Text(status: int, text: string)

  /** A request sent to one of the two providers. */
  datatype Call = ToShopify(shop: Shopify.Request) | ToSmartBill(bill: SmartBill.Request)

  datatype Handled = Handled(reply: Reply, calls: seq<Call>)

  function ShopCalls(rs: seq<Shopify.Request>): (cs: seq<Call>)
    ensures |cs| == |rs| && forall i :: 0 <= i < |rs| ==> cs[i] == ToShopify(rs[i])
  {
    seq(|rs|, i requires 0 <= i < |rs| => ToShopify(rs[i]))
  }

  function BillCalls(rs: seq<SmartBill.Request>): (cs: seq<Call>)
    ensures |cs| == |rs| && forall i :: 0 <= i < |rs| ==> cs[i] == ToSmartBill(rs[i])
  {
    seq(|rs|, i requires 0 <= i < |rs| => ToSmartBill(rs[i]))
  }

  /** Status 500 with the provider's response body, else the error message, as `error`. */
  function Failure(e: Thrown): Reply {
    Json(500, Obj(map["error" := Or(e.responseData, Str(e.message))]))
  }

  function ErrorReply(status: int, message: string): Reply {
    Json(status, Obj(map["error" := Str(message)]))
  }

  const MissingRef := "Lipse\U{0219}te num\U{0103}rul/ID-ul comenzii"
  const OrderNotFound := "Comand\U{0103} neg\U{0103}sit\U{0103} \U{00EE}n Shopify"

  // ---------------------------------------------------------------- settings

  /** The persisted settings object. */
  type Settings = map<string, Value>

  /** The settings file: unreadable (missing, or not JSON) or holding a JSON object. */
  datatype SettingsFile = Unreadable | Stored(settings: Settings)

  /** The settings as read: none whenever the file cannot be read or parsed. */
  function ReadSettings(f: SettingsFile): Settings {
    if f.Stored? then f.settings else map[]
  }

  function Setting(s: Settings, key: string): Value {
    if key in s then s[key] else Undefined
  }

  /** The properties `{...v}` copies from a JSON request body: an object's entries,
      or an array's elements under their decimal indices. */
  function OwnProps(v: Value): map<string, Value> {
    match v
    case Obj(m) => m
    case Arr(xs) => Indexed(xs)
    case _ => map[]
  }

  function Indexed(xs: seq<Value>): (m: map<string, Value>)
    ensures forall i :: 0 <= i < |xs| ==> NatToStr(i) in m && m[NatToStr(i)] == xs[i]
    ensures forall k :: k in m ==> exists i :: 0 <= i < |xs| && k == NatToStr(i)
  {
    NatToStrInjective();
    map i | 0 <= i < |xs| :: NatToStr(i) := xs[i]
  }

  /** The stored settings spread together with the request body: the body's
      properties override the stored ones and every other stored setting survives. */
  function Merge(cur: Settings, body: Value): (r: Settings)
    ensures r.Keys == cur.Keys + OwnProps(body).Keys
    ensures forall k :: k in OwnProps(body) ==> r[k] == OwnProps(body)[k]
    ensures forall k :: k in cur && k !in OwnProps(body) ==> r[k] == cur[k]
  {
    cur + OwnProps(body)
  }

  /** An unreadable file holds no setting, so posting settings to it stores exactly
      the body's properties. */
  lemma UnreadableIsEmpty(key: string, body: Value)
    ensures Setting(ReadSettings(Unreadable), key) == Undefined
    ensures Merge(ReadSettings(Unreadable), body) == OwnProps(body)
  {
  }

  /** Posting the same settings twice stores what posting them once does. */
  lemma MergeIdempotent(cur: Settings, body: Value)
    ensures Merge(Merge(cur, body), body) == Merge(cur, body)
  {
  }

  /** Two posts of objects store what one post of their union does, the later
      post winning on shared keys. */
  lemma MergeComposes(cur: Settings, a: map<string, Value>, b: map<string, Value>)
    ensures Merge(Merge(cur, Obj(a)), Obj(b)) == Merge(cur, Obj(a + b))
  {
    assert (cur + a) + b == cur + (a + b);
  }

  /** The store behind `/api/settings` and `/api/map`. */
  class SettingsStore {
    var file: SettingsFile

    constructor(file: SettingsFile)
      ensures this.file == file
    {
      this.file := file;
    }

    function Current(): Settings
      reads this
    {
      ReadSettings(file)
    }

    /** POST /api/settings: merge the body into the stored settings, store the
        result and echo it. */
    method PostSettings(body: Value) returns (reply: Reply)
      modifies this
      ensures file == Stored(Merge(old(Current()), body))
      ensures reply == Json(200, Obj(map["ok" := Bool(true), "settings" := Obj(Merge(old(Current()), body))]))
    {
      var next := Merge(Current(), body);
      file := Stored(next);
      reply := Json(200, Obj(map["ok" := Bool(true), "settings" := Obj(next)]));
    }

    /** POST /api/map: replace `warehouseMap` with the body (`{}` when the body is
        falsy) and keep every other setting. */
    method PostMap(body: Value) returns (reply: Reply)
      modifies this
      ensures file == Stored(old(Current())["warehouseMap" := Or(body, Obj(map[]))])
      ensures forall k :: k in old(Current()) && k != "warehouseMap" ==> k in Current() && Current()[k] == old(Current())[k]
      ensures reply == Json(200, Obj(map["ok" := Bool(true)]))
    {
      var cur := Current();
      file := Stored(cur["warehouseMap" := Or(body, Obj(map[]))]);
      reply := Json(200, Obj(map["ok" := Bool(true)]));
    }
  }

  // ---------------------------------------------------------------- layered configuration

  /** The series: the stored default if set, else the environment's, else 'SB'. */
  function ResolveSeries(s: Settings, env: Env): (r: Value)
    ensures Truthy(r)
    ensures Truthy(Setting(s, "defaultSeries")) ==> r == Setting(s, "defaultSeries")
    ensures !Truthy(Setting(s, "defaultSeries")) && Truthy(EnvValue(env, "SMARTBILL_SERIE")) ==>
      r == EnvValue(env, "SMARTBILL_SERIE")
    ensures !Truthy(Setting(s, "defaultSeries")) && !Truthy(EnvValue(env, "SMARTBILL_SERIE")) ==> r == Str("SB")
  {
    Or(Or(Setting(s, "defaultSeries"), EnvValue(env, "SMARTBILL_SERIE")), Str("SB"))
  }

  /** The warehouse from the settings, else from the environment. */
  function DefaultWarehouse(s: Settings, env: Env): Value {
    Or(Setting(s, "defaultWarehouse"), EnvValue(env, "SMARTBILL_DEFAULT_WAREHOUSE"))
  }

  /** The manual document's warehouse: the requested one if set, else the layered
      default. */
  function ResolveWarehouse(requested: Value, s: Settings, env: Env): Value {
    Or(requested, DefaultWarehouse(s, env))
  }

  /** Whether to e-mail the PDF: the stored flag unless it is null or undefined, else true. */
  function ResolveSendEmail(s: Settings): (r: Value)
    ensures !IsNullish(r)
    ensures IsNullish(Setting(s, "autoSendPdf")) ==> r == Bool(true)
    ensures !IsNullish(Setting(s, "autoSendPdf")) ==> r == Setting(s, "autoSendPdf")
  {
    Coalesce(Setting(s, "autoSendPdf"), Bool(true))
  }

  /** The series always resolves to a set value, so the document builder's own
      'SB' fallback never applies to a request from this service. */
  lemma SeriesFallbackUnused(s: Settings, env: Env)
    ensures Default(ResolveSeries(s, env), SmartBill.ConfigOf(env).series) == ResolveSeries(s, env)
  {
  }

  /** The warehouse a document is issued from when no warehouse is requested: the
      setting when set, otherwise the environment variable whenever it is defined
      (even empty), otherwise 'Magazin 2'. */
  lemma EffectiveWarehouse(s: Settings, env: Env)
    ensures var w := Default(DefaultWarehouse(s, env), SmartBill.ConfigOf(env).defaultWarehouse);
      && (Truthy(Setting(s, "defaultWarehouse")) ==> w == Setting(s, "defaultWarehouse"))
      && (!Truthy(Setting(s, "defaultWarehouse")) && "SMARTBILL_DEFAULT_WAREHOUSE" in env ==>
            w == Str(env["SMARTBILL_DEFAULT_WAREHOUSE"]))
      && (!Truthy(Setting(s, "defaultWarehouse")) && "SMARTBILL_DEFAULT_WAREHOUSE" !in env ==>
            w == Str("Magazin 2"))
  {
  }

  /** An environment flag: the variable, printed and lower-cased, reads "true". */
  predicate EnvFlag(env: Env, key: string) {
    AsciiLower(ToStr(EnvValue(env, key))) == "true"
  }

  /** A flag is on exactly when the variable is set to "true" in any letter case;
      an unset variable prints as "undefined" and is off. */
  lemma EnvFlagMeaning(env: Env, key: string)
    ensures EnvFlag(env, key) <==> key in env && AsciiLower(env[key]) == "true"
    ensures EnvFlag(env, key) <==>
      && key in env && |env[key]| == 4
      && env[key][0] in {'t', 'T'} && env[key][1] in {'r', 'R'}
      && env[key][2] in {'u', 'U'} && env[key][3] in {'e', 'E'}
    ensures key in env && env[key] in {"true", "TRUE", "True", "tRuE"} ==> EnvFlag(env, key)
  {
    if key !in env {
      assert AsciiLower("undefined")[0] == 'u';
    } else {
      var l := AsciiLower(env[key]);
      assert l == "true" <==> |l| == 4 && l[0] == 't' && l[1] == 'r' && l[2] == 'u' && l[3] == 'e';
    }
  }

  predicate AutoInvoice(s: Settings, env: Env) {
    Truthy(Setting(s, "autoInvoice")) || EnvFlag(env, "AUTO_INVOICE")
  }

  predicate AutoCreditNote(s: Settings, env: Env) {
    Truthy(Setting(s, "autoCreditNote")) || EnvFlag(env, "AUTO_CREDITNOTE")
  }

  // ---------------------------------------------------------------- manual actions

  /** What a handler works with besides its request: the environment, the
      settings as it reads them, both providers and the issue date. */
  datatype Context = Context(
    env: Env, settings: Settings, shop: Shopify.Api, bill: SmartBill.Provider, today: string)

  /** A field of the request body; a missing body has no fields. */
  function Field(body: Value, key: string): Value {
    Prop(Or(body, Obj(map[])), key)
  }

  /** The shape both manual actions share: refuse a missing reference, look the
      order up, answer 404 when there is none, otherwise issue one document; any
      throw becomes a 500 carrying the provider's response or the message. */
  function OrderAction(ref: Value, lookup: Step<Shopify.Request, Option<Order>>,
                       issue: Order -> Step<SmartBill.Request, SmartBill.DocResult>,
                       success: SmartBill.DocResult -> Value): (h: Handled)
    requires |lookup.requests| == 1
    requires forall o :: |issue(o).requests| == 1
    ensures !Truthy(ref) ==> h == Handled(ErrorReply(400, MissingRef), [])
    ensures Truthy(ref) ==> 1 <= |h.calls| <= 2 && h.calls[0] == ToShopify(lookup.requests[0])
    ensures h.reply.status == 404 <==> Truthy(ref) && lookup.result == Ok(None)
    ensures |h.calls| == 2 <==> Truthy(ref) && lookup.result.Ok? && lookup.result.value.Some?
    ensures |h.calls| == 2 ==> h.calls[1] == ToSmartBill(issue(lookup.result.value.value).requests[0])
    ensures h.reply.Json? && h.reply.status in {200, 400, 404, 500}
    ensures h.reply.status == 200 ==>
      && |h.calls| == 2 && issue(lookup.result.value.value).result.Ok?
      && h.reply.body == success(issue(lookup.result.value.value).result.value)
    ensures h.reply.status == 500 ==>
      Truthy(ref) && h.calls != [] && (lookup.result.Err? || issue(lookup.result.value.value).result.Err?)
    ensures h.reply.status == 400 ==> !Truthy(ref)
    ensures Truthy(ref) && lookup.result.Err? ==> h.reply == Failure(lookup.result.error)
    ensures |h.calls| == 2 ==>
      var d := issue(lookup.result.value.value).result;
      h.reply == if d.Ok? then Json(200, success(d.value)) else Failure(d.error)
  {
    if !Truthy(ref) then Handled(ErrorReply(400, MissingRef), [])
    else
      var found := ShopCalls(lookup.requests);
      match lookup.result
      case Err(e) => Handled(Failure(e), found)
      case Ok(None) => Handled(ErrorReply(404, OrderNotFound), found)
      case Ok(Some(order)) =>
        var doc := issue(order);
        var calls := found + BillCalls(doc.requests);
        match doc.result
        case Err(e) => Handled(Failure(e), calls)
        case Ok(r) => Handled(Json(200, success(r)), calls)
  }

  function DocumentArgs(ctx: Context, body: Value, order: Order): SmartBill.DocArgs {
    SmartBill.DocArgs(
      order, Default(Field(body, "type"), Str("invoice")),
      ResolveWarehouse(Field(body, "warehouse"), ctx.settings, ctx.env),
      ResolveSeries(ctx.settings, ctx.env), ResolveSendEmail(ctx.settings))
  }

  /** The document the manual action issues for an order it found. */
  function IssueDocument(ctx: Context, body: Value, order: Order): (st: Step<SmartBill.Request, SmartBill.DocResult>)
    ensures |st.requests| == 1
  {
    SmartBill.CreateDocFromOrder(ctx.bill, SmartBill.ConfigOf(ctx.env), ctx.today, DocumentArgs(ctx, body, order))
  }

  /** The manual document follows the request first and the settings second: the
      body's `type` picks a proforma only when it is "proforma", the body's
      `warehouse` wins over the layered default, the series and the e-mail flag
      come from the settings. */
  lemma ManualDocumentRequest(ctx: Context, body: Value, order: Order)
    ensures var req := IssueDocument(ctx, body, order).requests[0];
      && (req.path == "/api/proforma" <==> Field(body, "type") == Str("proforma"))
      && req.body.InvoiceBody?
      && req.body.client == SmartBill.BuildClient(order)
      && req.body.seriesName == ResolveSeries(ctx.settings, ctx.env)
      && req.body.sendEmail == Truthy(ResolveSendEmail(ctx.settings))
      && (Truthy(Field(body, "warehouse")) ==> req.body.warehouseName == Field(body, "warehouse"))
      && (!Truthy(Field(body, "warehouse")) ==>
            req.body.warehouseName == Default(DefaultWarehouse(ctx.settings, ctx.env), SmartBill.ConfigOf(ctx.env).defaultWarehouse))
  {
    SeriesFallbackUnused(ctx.settings, ctx.env);
  }

  /** The document type followed by the fields of the result. */
  function DocumentReply(docType: Value, r: SmartBill.DocResult): (v: Value)
    ensures v.Obj? && v.props.Keys == {"docType", "number", "pdfUrl"}
    ensures v.props["docType"] == docType && v.props["number"] == r.number && v.props["pdfUrl"] == r.pdfUrl
  {
    Obj(map["docType" := docType, "number" := r.number, "pdfUrl" := r.pdfUrl])
  }

  /** POST /actions/document. */
  function ActionDocument(ctx: Context, body: Value): (h: Handled)
    ensures var ref := Field(body, "orderRef");
      var lookup := Shopify.FetchOrderByRef(ctx.shop, ref);
      && (!Truthy(ref) ==> h == Handled(ErrorReply(400, MissingRef), []))
      && (Truthy(ref) ==> 1 <= |h.calls| <= 2 && h.calls[0] == ToShopify(lookup.requests[0]))
      && (h.reply.status == 404 <==> Truthy(ref) && lookup.result == Ok(None))
      && (|h.calls| == 2 <==> Truthy(ref) && lookup.result.Ok? && lookup.result.value.Some?)
      && (|h.calls| == 2 ==> h.calls[1] == ToSmartBill(IssueDocument(ctx, body, lookup.result.value.value).requests[0]))
      && h.reply.Json? && h.reply.status in {200, 400, 404, 500}
      && (h.reply.status == 200 ==>
            && h.reply.body.Obj? && h.reply.body.props.Keys == {"docType", "number", "pdfUrl"}
            && h.reply.body.props["docType"] == Default(Field(body, "type"), Str("invoice")))
      && (h.reply.status == 400 ==> !Truthy(ref))
      && (Truthy(ref) && lookup.result.Err? ==> h.reply == Failure(lookup.result.error))
      && (|h.calls| == 2 ==>
            var d := IssueDocument(ctx, body, lookup.result.value.value).result;
            h.reply == if d.Ok? then Json(200, DocumentReply(Default(Field(body, "type"), Str("invoice")), d.value))
                       else Failure(d.error))
  {
    var ref := Field(body, "orderRef");
    var docType := Default(Field(body, "type"), Str("invoice"));
    OrderAction(ref, Shopify.FetchOrderByRef(ctx.shop, ref), order => IssueDocument(ctx, body, order),
                r => DocumentReply(docType, r))
  }

  /** The credit note the manual action issues for an order it found. */
  function IssueCredit(ctx: Context, body: Value, order: Order): (st: Step<SmartBill.Request, SmartBill.DocResult>)
    ensures |st.requests| == 1
  {
    SmartBill.CreateCreditFromOrder(ctx.bill, SmartBill.ConfigOf(ctx.env), ctx.today,
      SmartBill.CreditArgs(order, DefaultWarehouse(ctx.settings, ctx.env), ResolveSeries(ctx.settings, ctx.env),
                           Default(Field(body, "reason"), Str("Return"))))
  }

  /** The manual credit note ignores any requested warehouse and gives the body's
      `reason`, 'Return' by default. */
  lemma ManualCreditRequest(ctx: Context, body: Value, order: Order)
    ensures var req := IssueCredit(ctx, body, order).requests[0];
      && req.path == "/api/creditnote" && req.body.CreditNoteBody?
      && req.body.client == SmartBill.BuildClient(order)
      && req.body.seriesName == ResolveSeries(ctx.settings, ctx.env)
      && req.body.warehouseName == Default(DefaultWarehouse(ctx.settings, ctx.env), SmartBill.ConfigOf(ctx.env).defaultWarehouse)
      && req.body.observations == SmartBill.Observation(order, "credit", Default(Field(body, "reason"), Str("Return")))
  {
    SeriesFallbackUnused(ctx.settings, ctx.env);
  }

  /** The result as it is. */
  function CreditReply(r: SmartBill.DocResult): (v: Value)
    ensures v.Obj? && v.props.Keys == {"number", "pdfUrl"}
    ensures v.props["number"] == r.number && v.props["pdfUrl"] == r.pdfUrl
  {
    Obj(map["number" := r.number, "pdfUrl" := r.pdfUrl])
  }

  /** POST /actions/credit. */
  function ActionCredit(ctx: Context, body: Value): (h: Handled)
    ensures var ref := Field(body, "orderRef");
      var lookup := Shopify.FetchOrderByRef(ctx.shop, ref);
      && (!Truthy(ref) ==> h == Handled(ErrorReply(400, MissingRef), []))
      && (Truthy(ref) ==> 1 <= |h.calls| <= 2 && h.calls[0] == ToShopify(lookup.requests[0]))
      && (h.reply.status == 404 <==> Truthy(ref) && lookup.result == Ok(None))
      && (|h.calls| == 2 <==> Truthy(ref) && lookup.result.Ok? && lookup.result.value.Some?)
      && (|h.calls| == 2 ==> h.calls[1] == ToSmartBill(IssueCredit(ctx, body, lookup.result.value.value).requests[0]))
      && h.reply.Json? && h.reply.status in {200, 400, 404, 500}
      && (h.reply.status == 200 ==> h.reply.body.Obj? && h.reply.body.props.Keys == {"number", "pdfUrl"})
      && (h.reply.status == 400 ==> !Truthy(ref))
      && (Truthy(ref) && lookup.result.Err? ==> h.reply == Failure(lookup.result.error))
      && (|h.calls| == 2 ==>
            var d := IssueCredit(ctx, body, lookup.result.value.value).result;
            h.reply == if d.Ok? then Json(200, CreditReply(d.value)) else Failure(d.error))
  {
    var ref := Field(body, "orderRef");
    OrderAction(ref, Shopify.FetchOrderByRef(ctx.shop, ref), order => IssueCredit(ctx, body, order), CreditReply)
  }

  // ---------------------------------------------------------------- webhook

  /** How the signature check ends: the secret is unset (creating the HMAC throws),
      the header's byte length differs from the digest's (the constant-time
      comparison throws), the bytes differ, or they agree. */
  datatype Auth = NoSecret | LengthMismatch | Mismatch | Authentic

  /** The signature header, empty when absent. */
  function HeaderText(header: Option<string>): string {
    if header.Some? then header.value else ""
  }

  /** Compares the UTF-8 bytes of `digest(secret, raw)` (the base64 HMAC-SHA256 of
      the raw body) with those of the header. */
  function Authenticate(env: Env, raw: seq<byte>, header: Option<string>, digest: (string, seq<byte>) -> string): Auth {
    if "SHOPIFY_WEBHOOK_SECRET" !in env then NoSecret
    else
      var expected := Utf8(digest(env["SHOPIFY_WEBHOOK_SECRET"], raw));
      var given := Utf8(HeaderText(header));
      if |expected| != |given| then LengthMismatch
      else if expected != given then Mismatch
      else Authentic
  }

  /** A delivery is authentic exactly when the secret is set and the header is the
      digest of the raw body under it. */
  lemma AuthenticIffHeaderIsDigest(env: Env, raw: seq<byte>, header: Option<string>, digest: (string, seq<byte>) -> string)
    ensures Authenticate(env, raw, header, digest) == Authentic <==>
      "SHOPIFY_WEBHOOK_SECRET" in env && digest(env["SHOPIFY_WEBHOOK_SECRET"], raw) == HeaderText(header)
  {
    if Authenticate(env, raw, header, digest) == Authentic {
      Utf8Injective(digest(env["SHOPIFY_WEBHOOK_SECRET"], raw), HeaderText(header));
    }
  }

  /** For an ASCII digest and header (base64 is ASCII), a wrong header of the right
      length is refused as forged and one of another length fails the check. */
  lemma AsciiSignatureOutcomes(env: Env, raw: seq<byte>, header: Option<string>, digest: (string, seq<byte>) -> string)
    requires "SHOPIFY_WEBHOOK_SECRET" in env
    requires var d := digest(env["SHOPIFY_WEBHOOK_SECRET"], raw);
      forall i :: 0 <= i < |d| ==> d[i] as int < 0x80
    requires var t := HeaderText(header); forall i :: 0 <= i < |t| ==> t[i] as int < 0x80
    ensures var d := digest(env["SHOPIFY_WEBHOOK_SECRET"], raw);
      && (|d| != |HeaderText(header)| ==> Authenticate(env, raw, header, digest) == LengthMismatch)
      && (|d| == |HeaderText(header)| && d != HeaderText(header) ==>
            Authenticate(env, raw, header, digest) == Mismatch)
  {
    var d := digest(env["SHOPIFY_WEBHOOK_SECRET"], raw);
    if |d| == |HeaderText(header)| && d != HeaderText(header) && Utf8(d) == Utf8(HeaderText(header)) {
      Utf8Injective(d, HeaderText(header));
    }
  }

  /** The invoice the webhook issues for a paid order. */
  function WebhookInvoice(ctx: Context, order: Order): Step<SmartBill.Request, SmartBill.DocResult> {
    SmartBill.CreateDocFromOrder(ctx.bill, SmartBill.ConfigOf(ctx.env), ctx.today,
      SmartBill.DocArgs(order, Str("invoice"), DefaultWarehouse(ctx.settings, ctx.env),
                        ResolveSeries(ctx.settings, ctx.env), ResolveSendEmail(ctx.settings)))
  }

  /** The credit note the webhook issues for a refund. */
  function WebhookCredit(ctx: Context, order: Order): Step<SmartBill.Request, SmartBill.DocResult> {
    SmartBill.CreateCreditFromOrder(ctx.bill, SmartBill.ConfigOf(ctx.env), ctx.today,
      SmartBill.CreditArgs(order, DefaultWarehouse(ctx.settings, ctx.env),
                           ResolveSeries(ctx.settings, ctx.env), Str("Refund Shopify")))
  }

  predicate InvoiceOnPaid(ctx: Context, topic: Option<string>) {
    topic == Some("orders/paid") && AutoInvoice(ctx.settings, ctx.env)
  }

  predicate CreditOnRefund(ctx: Context, topic: Option<string>) {
    topic == Some("refunds/create") && AutoCreditNote(ctx.settings, ctx.env)
  }

  /** The two topic checks, run one after the other on an authentic delivery:
      a paid order gets an invoice when invoicing is on, a refund a credit note when
      crediting is on, any other delivery is acknowledged without a request. */
  function Dispatch(ctx: Context, topic: Option<string>, order: Order): (h: Handled)
    ensures InvoiceOnPaid(ctx, topic) ==>
      var doc := WebhookInvoice(ctx, order);
      |doc.requests| == 1 && h == Handled(if doc.result.Ok? then Text(200, "ok") else Text(500, "error"), BillCalls(doc.requests))
    ensures CreditOnRefund(ctx, topic) ==>
      var doc := WebhookCredit(ctx, order);
      |doc.requests| == 1 && h == Handled(if doc.result.Ok? then Text(200, "ok") else Text(500, "error"), BillCalls(doc.requests))
    ensures !InvoiceOnPaid(ctx, topic) && !CreditOnRefund(ctx, topic) ==> h == Handled(Text(200, "ok"), [])
  {
    // The two checks test different topics, so at most one of them holds.
    if InvoiceOnPaid(ctx, topic) then
      var doc := WebhookInvoice(ctx, order);
      Handled(if doc.result.Ok? then Text(200, "ok") else Text(500, "error"), BillCalls(doc.requests))
    else if CreditOnRefund(ctx, topic) then
      var doc := WebhookCredit(ctx, order);
      Handled(if doc.result.Ok? then Text(200, "ok") else Text(500, "error"), BillCalls(doc.requests))
    else Handled(Text(200, "ok"), [])
  }

  /** POST /webhooks/shopify. `payload` is the parsed body (`None` when it is not
      JSON). Nothing is sent unless the delivery is authentic and parses, and then
      at most one document is requested. */
  function Webhook(ctx: Context, raw: seq<byte>, header: Option<string>, topic: Option<string>,
                   payload: Option<Order>, digest: (string, seq<byte>) -> string): (h: Handled)
    ensures var auth := Authenticate(ctx.env, raw, header, digest);
      && (auth != Authentic ==>
            h == Handled(if auth == Mismatch then Text(401, "Invalid HMAC") else Text(500, "error"), []))
      && (auth == Authentic && payload.None? ==> h == Handled(Text(500, "error"), []))
      && (auth == Authentic && payload.Some? ==> h == Dispatch(ctx, topic, payload.value))
    ensures |h.calls| <= 1
    ensures h.reply in {Text(200, "ok"), Text(401, "Invalid HMAC"), Text(500, "error")}
  {
    match Authenticate(ctx.env, raw, header, digest)
    case NoSecret => Handled(Text(500, "error"), [])
    case LengthMismatch => Handled(Text(500, "error"), [])
    case Mismatch => Handled(Text(401, "Invalid HMAC"), [])
    case Authentic =>
      if payload.None? then Handled(Text(500, "error"), []) else Dispatch(ctx, topic, payload.value)
  }

  /** Issued from the webhook, the documents follow the settings and not the
      request: invoices are never proformas and credit notes give 'Refund Shopify'
      as their reason. */
  lemma WebhookDocuments(ctx: Context, order: Order)
    ensures var req := WebhookInvoice(ctx, order).requests[0];
      req.path == "/api/invoice" && req.body.InvoiceBody? && req.body.sendEmail == Truthy(ResolveSendEmail(ctx.settings))
      && req.body.observations == SmartBill.Observation(order, "invoice", req.body.warehouseName)
      && req.body.seriesName == ResolveSeries(ctx.settings, ctx.env)
      && req.body.warehouseName == Default(DefaultWarehouse(ctx.settings, ctx.env), SmartBill.ConfigOf(ctx.env).defaultWarehouse)
    ensures var req := WebhookCredit(ctx, order).requests[0];
      req.path == "/api/creditnote" && req.body.CreditNoteBody?
      && req.body.observations == SmartBill.Observation(order, "credit", Str("Refund Shopify"))
      && req.body.seriesName == ResolveSeries(ctx.settings, ctx.env)
      && req.body.warehouseName == Default(DefaultWarehouse(ctx.settings, ctx.env), SmartBill.ConfigOf(ctx.env).defaultWarehouse)
  {
    SeriesFallbackUnused(ctx.settings, ctx.env);
  }

  // ---------------------------------------------------------------- stock sync

  datatype PassOutcome = NoSkus | Synced | Failed(error: Thrown)

  /** The requests one pass of the stock job sends and how it ends. */
  datatype Pass = Pass(calls: seq<Call>, outcome: PassOutcome)

  /** The requests of the write loop and the error that stopped it, if any. */
  datatype Writes = Writes(calls: seq<Call>, error: Option<Thrown>)

  /** The SKUs of the listed variants, in order, without the unset ones. */
  function SyncSkus(vs: seq<Shopify.VariantSku>): seq<Value> {
    FilterTruthy(seq(|vs|, i requires 0 <= i < |vs| => vs[i].sku))
  }

  /** The loop body for one entry: look its code up and, when an inventory item
      is found, write the entry's quantity at the location. */
  function WriteOne(shop: Shopify.Api, location: Value, e: SmartBill.Entry): (w: Writes)
    ensures 1 <= |w.calls| <= 2
    ensures w.calls[0] == ToShopify(Shopify.VariantsBySku(e.code, 1))
    ensures |w.calls| == 2 <==> Shopify.GetInventoryItemIdBySku(shop, e.code).result.Ok?
                                && Truthy(Shopify.GetInventoryItemIdBySku(shop, e.code).result.value)
    ensures |w.calls| == 2 ==>
      w.calls[1] == ToShopify(Shopify.SetInventoryLevel(Shopify.LevelPayload(
        ToNumber(location), ToNumber(Shopify.GetInventoryItemIdBySku(shop, e.code).result.value), e.stock)))
    ensures var look := Shopify.GetInventoryItemIdBySku(shop, e.code).result;
      w.error == match look
        case Err(x) => Some(x)
        case Ok(item) =>
          var put := Shopify.UpdateInventoryLevel(shop, item, location, e.stock).result;
          if Truthy(item) && put.Err? then Some(put.error) else None
  {
    var look := Shopify.GetInventoryItemIdBySku(shop, e.code);
    var looked := ShopCalls(look.requests);
    match look.result
    case Err(err) => Writes(looked, Some(err))
    case Ok(item) =>
      if !Truthy(item) then Writes(looked, None)
      else
        var w := Shopify.UpdateInventoryLevel(shop, item, location, e.stock);
        Writes(looked + ShopCalls(w.requests), if w.result.Err? then Some(w.result.error) else None)
  }

  /** Runs `first`, then, unless it threw, `rest`. */
  function Then(first: Writes, rest: Writes): Writes {
    if first.error.Some? then first else Writes(first.calls + rest.calls, rest.error)
  }

  /** The write loop over the stock map; the first throw stops it. */
  function WriteStocks(shop: Shopify.Api, location: Value, es: seq<SmartBill.Entry>): Writes
    decreases |es|
  {
    if es == [] then Writes([], None)
    else Then(WriteOne(shop, location, es[0]), WriteStocks(shop, location, es[1..]))
  }

  /** The loop from entry `i` on writes entry `i` and then the rest. */
  lemma WriteStocksUnfold(shop: Shopify.Api, location: Value, es: seq<SmartBill.Entry>, i: nat)
    requires i < |es|
    ensures WriteStocks(shop, location, es[i..])
         == Then(WriteOne(shop, location, es[i]), WriteStocks(shop, location, es[i + 1..]))
  {
    assert es[i..][0] == es[i] && es[i..][1..] == es[i + 1..];
  }

  /** The loop finishes without an error exactly when no entry's step throws. */
  lemma {:induction false} WriteStocksSucceeds(shop: Shopify.Api, location: Value, es: seq<SmartBill.Entry>)
    ensures WriteStocks(shop, location, es).error.None?
        <==> forall i :: 0 <= i < |es| ==> WriteOne(shop, location, es[i]).error.None?
  {
    if es != [] {
      WriteStocksSucceeds(shop, location, es[1..]);
      if WriteOne(shop, location, es[0]).error.None? {
        forall i | 1 <= i < |es|
          ensures es[i] == es[1..][i - 1]
        {
        }
      }
    }
  }

  /** When the loop stops with an error, it is the error of the first entry whose
      step throws. */
  lemma {:induction false} WriteStocksFirstError(shop: Shopify.Api, location: Value, es: seq<SmartBill.Entry>)
    requires WriteStocks(shop, location, es).error.Some?
    ensures exists k :: 0 <= k < |es| && WriteStocks(shop, location, es).error == WriteOne(shop, location, es[k]).error
                     && forall j :: 0 <= j < k ==> WriteOne(shop, location, es[j]).error.None?
  {
    var w := WriteStocks(shop, location, es);
    if WriteOne(shop, location, es[0]).error.None? {
      WriteStocksFirstError(shop, location, es[1..]);
      var k :| 0 <= k < |es[1..]| && w.error == WriteOne(shop, location, es[1..][k]).error
               && forall j :: 0 <= j < k ==> WriteOne(shop, location, es[1..][j]).error.None?;
      assert w.error == WriteOne(shop, location, es[k + 1]).error;
      forall j | 0 <= j < k + 1
        ensures WriteOne(shop, location, es[j]).error.None?
      {
        if j > 0 {
          assert es[j] == es[1..][j - 1];
        }
      }
    }
  }

  /** Running the loop over `xs + ys` runs it over `xs` and, unless that threw,
      then over `ys`. */
  lemma {:induction false} WriteStocksAppend(shop: Shopify.Api, location: Value, xs: seq<SmartBill.Entry>, ys: seq<SmartBill.Entry>)
    ensures WriteStocks(shop, location, xs + ys)
         == Then(WriteStocks(shop, location, xs), WriteStocks(shop, location, ys))
  {
    if xs == [] {
      assert xs + ys == ys;
    } else {
      assert (xs + ys)[0] == xs[0] && (xs + ys)[1..] == xs[1..] + ys;
      WriteStocksAppend(shop, location, xs[1..], ys);
      ThenAssociative(WriteOne(shop, location, xs[0]), WriteStocks(shop, location, xs[1..]), WriteStocks(shop, location, ys));
    }
  }

  lemma ThenAssociative(a: Writes, b: Writes, c: Writes)
    ensures Then(Then(a, b), c) == Then(a, Then(b, c))
  {
    if a.error.None? && b.error.None? {
      assert (a.calls + b.calls) + c.calls == a.calls + (b.calls + c.calls);
    }
  }

  /** One step of the loop: having sent `calls` without a throw, run `one`; the
      loop ends with its error, or goes on with `rest`. */
  lemma ThenStep(calls: seq<Call>, one: Writes, rest: Writes, total: Writes)
    requires Then(Writes(calls, None), Then(one, rest)) == total
    ensures one.error.Some? ==> Writes(calls + one.calls, one.error) == total
    ensures one.error.None? ==> Then(Writes(calls + one.calls, None), rest) == total
  {
    ThenAssociative(Writes(calls, None), one, rest);
  }

  /** One request of the write loop: a single-result lookup of an entry's code, or
      a write of an entry's quantity at the given location. */
  predicate LoopCall(c: Call, location: Value, es: seq<SmartBill.Entry>) {
    && c.ToShopify?
    && ((c.shop.VariantsBySku? && c.shop.limit == 1 && exists e :: e in es && e.code == c.shop.sku)
        || (c.shop.SetInventoryLevel? && c.shop.payload.locationId == ToNumber(location)
            && exists e :: e in es && e.stock == c.shop.payload.available))
  }

  /** The loop looks up only codes of the stock map and writes only its quantities,
      all at one location, with at most one lookup and one write per entry. */
  lemma {:induction false} WriteStocksCalls(shop: Shopify.Api, location: Value, es: seq<SmartBill.Entry>)
    ensures var w := WriteStocks(shop, location, es);
      && |w.calls| <= 2 * |es|
      && forall i :: 0 <= i < |w.calls| ==> LoopCall(w.calls[i], location, es)
  {
    if es != [] {
      var one := WriteOne(shop, location, es[0]);
      var rest := WriteStocks(shop, location, es[1..]);
      WriteStocksCalls(shop, location, es[1..]);
      assert es[0] in es;
      forall i | 0 <= i < |one.calls|
        ensures LoopCall(one.calls[i], location, es)
      {
      }
      forall i | 0 <= i < |rest.calls|
        ensures LoopCall(rest.calls[i], location, es)
      {
        assert LoopCall(rest.calls[i], location, es[1..]);
        var c := rest.calls[i];
        if c.shop.VariantsBySku? {
          var e :| e in es[1..] && e.code == c.shop.sku;
          assert e in es;
        } else {
          var e :| e in es[1..] && e.stock == c.shop.payload.available;
          assert e in es;
        }
      }
      var w := WriteStocks(shop, location, es);
      if one.error.None? {
        forall i | 0 <= i < |w.calls|
          ensures LoopCall(w.calls[i], location, es)
        {
          if i >= |one.calls| {
            assert w.calls[i] == rest.calls[i - |one.calls|];
          }
        }
      }
    }
  }

  /** One pass of the stock job, as a specification. */
  function StockPass(shop: Shopify.Api, bill: SmartBill.Provider, env: Env): Pass {
    var list := Shopify.ListRecentVariantSkus(shop, 250);
    var listed := ShopCalls(list.requests);
    if list.result.Err? then Pass(listed, Failed(list.result.error))
    else
      var skus := SyncSkus(list.result.value);
      if |skus| == 0 then Pass(listed, NoSkus)
      else
        var stocks := SmartBill.StocksBySkus(bill, SmartBill.ConfigOf(env), skus);
        var fetched := listed + BillCalls(stocks.requests);
        if stocks.result.Err? then Pass(fetched, Failed(stocks.result.error))
        else
          var loc := Shopify.GetLocationId(shop, EnvValue(env, "SHOPIFY_LOCATION_ID"));
          var located := fetched + ShopCalls(loc.requests);
          if loc.result.Err? then Pass(located, Failed(loc.result.error))
          else Finish(located, WriteStocks(shop, loc.result.value, stocks.result.value))
  }

  function Finish(prefix: seq<Call>, w: Writes): Pass {
    Pass(prefix + w.calls, if w.error.Some? then Failed(w.error.value) else Synced)
  }

  predicate IsWrite(c: Call) {
    c.ToShopify? && c.shop.SetInventoryLevel?
  }

  /** How a pass starts: with the variant listing; it stops there exactly when no
      listed variant has a SKU; otherwise it asks the stock provider for the
      listed SKUs, in order. */
  lemma StockPassStart(shop: Shopify.Api, bill: SmartBill.Provider, env: Env)
    ensures var p := StockPass(shop, bill, env);
      var list := Shopify.ListRecentVariantSkus(shop, 250);
      && |p.calls| >= 1 && p.calls[0] == ToShopify(Shopify.ListVariants(250))
      && (p.outcome == NoSkus <==> list.result.Ok? && SyncSkus(list.result.value) == [])
      && (p.outcome == NoSkus ==> |p.calls| == 1)
      && (|p.calls| >= 2 ==>
            && list.result.Ok?
            && p.calls[1] == ToSmartBill(SmartBill.PostStock(SmartBill.ConfigOf(env).companyVatCode, SyncSkus(list.result.value))))
  {
  }

  /** The calls after the first `|prefix|` are the loop's. */
  lemma FinishKeepsLoopCalls(prefix: seq<Call>, w: Writes, location: Value, es: seq<SmartBill.Entry>)
    requires forall i :: 0 <= i < |w.calls| ==> LoopCall(w.calls[i], location, es)
    ensures var p := Finish(prefix, w);
      |p.calls| == |prefix| + |w.calls| && p.calls[..|prefix|] == prefix
      && forall i :: |prefix| <= i < |p.calls| ==> LoopCall(p.calls[i], location, es)
  {
    var p := Finish(prefix, w);
    assert p.calls[..|prefix|] == prefix;
    forall i | |prefix| <= i < |p.calls|
      ensures LoopCall(p.calls[i], location, es)
    {
      assert p.calls[i] == w.calls[i - |prefix|];
    }
  }

  /** A pass is a prefix of at most three requests (listing, stock request,
      location lookup) followed by requests of the write loop. */
  lemma StockPassSplits(shop: Shopify.Api, bill: SmartBill.Provider, env: Env)
    returns (prefix: seq<Call>, location: Value, es: seq<SmartBill.Entry>)
    ensures var p := StockPass(shop, bill, env);
      && |prefix| <= 3 && |prefix| <= |p.calls| && p.calls[..|prefix|] == prefix
      && (forall i :: 0 <= i < |prefix| ==> !IsWrite(prefix[i]))
      && (forall i :: 0 <= i < |prefix| && prefix[i] == ToShopify(Shopify.ListLocations) ==> i == 2)
      && (forall i :: 2 <= i < |prefix| ==> prefix[i].ToShopify?)
      && (forall i :: |prefix| <= i < |p.calls| ==> LoopCall(p.calls[i], location, es))
  {
    var p := StockPass(shop, bill, env);
    var list := Shopify.ListRecentVariantSkus(shop, 250);
    prefix, location, es := p.calls, Undefined, [];
    if list.result.Ok? && SyncSkus(list.result.value) != [] {
      var stocks := SmartBill.StocksBySkus(bill, SmartBill.ConfigOf(env), SyncSkus(list.result.value));
      if stocks.result.Ok? {
        var loc := Shopify.GetLocationId(shop, EnvValue(env, "SHOPIFY_LOCATION_ID"));
        prefix := ShopCalls(list.requests) + BillCalls(stocks.requests) + ShopCalls(loc.requests);
        if loc.result.Ok? {
          location, es := loc.result.value, stocks.result.value;
          WriteStocksCalls(shop, location, es);
          FinishKeepsLoopCalls(prefix, WriteStocks(shop, location, es), location, es);
        }
      }
    }
  }

  /** After the stock request a pass talks only to the storefront. */
  lemma StockPassThenStorefrontOnly(shop: Shopify.Api, bill: SmartBill.Provider, env: Env)
    ensures var p := StockPass(shop, bill, env);
      forall i :: 2 <= i < |p.calls| ==> p.calls[i].ToShopify?
  {
    var prefix, location, es := StockPassSplits(shop, bill, env);
    var p := StockPass(shop, bill, env);
    forall i | 2 <= i < |p.calls|
      ensures p.calls[i].ToShopify?
    {
      if i < |prefix| {
        assert p.calls[i] == prefix[i];
      }
    }
  }

  /** A pass looks the location up at most once. */
  lemma StockPassLocatesOnce(shop: Shopify.Api, bill: SmartBill.Provider, env: Env)
    ensures var p := StockPass(shop, bill, env);
      forall i, j :: 0 <= i < j < |p.calls| && p.calls[i] == ToShopify(Shopify.ListLocations) ==>
        p.calls[j] != ToShopify(Shopify.ListLocations)
  {
    var prefix, location, es := StockPassSplits(shop, bill, env);
    var p := StockPass(shop, bill, env);
    forall i | 0 <= i < |p.calls| && p.calls[i] == ToShopify(Shopify.ListLocations)
      ensures i == 2
    {
      if i < |prefix| {
        assert p.calls[i] == prefix[i];
      }
    }
  }

  /** Every write of a pass goes to the location the lookup resolved. */
  lemma StockPassWritesAtResolvedLocation(shop: Shopify.Api, bill: SmartBill.Provider, env: Env)
    ensures var p := StockPass(shop, bill, env);
      var loc := Shopify.GetLocationId(shop, EnvValue(env, "SHOPIFY_LOCATION_ID")).result;
      forall i :: 0 <= i < |p.calls| && IsWrite(p.calls[i]) ==>
        loc.Ok? && p.calls[i].shop.payload.locationId == ToNumber(loc.value)
  {
    var p := StockPass(shop, bill, env);
    var list := Shopify.ListRecentVariantSkus(shop, 250);
    var loc := Shopify.GetLocationId(shop, EnvValue(env, "SHOPIFY_LOCATION_ID"));
    if list.result.Ok? && SyncSkus(list.result.value) != [] {
      var stocks := SmartBill.StocksBySkus(bill, SmartBill.ConfigOf(env), SyncSkus(list.result.value));
      if stocks.result.Ok? && loc.result.Ok? {
        var prefix := ShopCalls(list.requests) + BillCalls(stocks.requests) + ShopCalls(loc.requests);
        var w := WriteStocks(shop, loc.result.value, stocks.result.value);
        WriteStocksCalls(shop, loc.result.value, stocks.result.value);
        assert p == Finish(prefix, w);
        FinishKeepsLoopCalls(prefix, w, loc.result.value, stocks.result.value);
        forall i | 0 <= i < |p.calls| && IsWrite(p.calls[i])
          ensures p.calls[i].shop.payload.locationId == ToNumber(loc.result.value)
        {
        }
      }
    }
  }

  /** Every write of a pass goes to the resolved location, so all of them go to
      the same one. */
  lemma StockPassWritesOneLocation(shop: Shopify.Api, bill: SmartBill.Provider, env: Env)
    ensures var p := StockPass(shop, bill, env);
      var loc := Shopify.GetLocationId(shop, EnvValue(env, "SHOPIFY_LOCATION_ID")).result;
      && (forall i :: 0 <= i < |p.calls| && IsWrite(p.calls[i]) ==>
            loc.Ok? && p.calls[i].shop.payload.locationId == ToNumber(loc.value))
      && (forall i, j :: 0 <= i < |p.calls| && 0 <= j < |p.calls| && IsWrite(p.calls[i]) && IsWrite(p.calls[j]) ==>
            p.calls[i].shop.payload.locationId == p.calls[j].shop.payload.locationId)
  {
    StockPassWritesAtResolvedLocation(shop, bill, env);
  }

  /** A pass ends at the first request that throws: whatever the loop would have
      done for the remaining entries is not sent. */
  lemma WriteStocksStopsAtFirstFailure(shop: Shopify.Api, location: Value, done: seq<SmartBill.Entry>, rest: seq<SmartBill.Entry>)
    requires WriteStocks(shop, location, done).error.Some?
    ensures WriteStocks(shop, location, done + rest) == WriteStocks(shop, location, done)
  {
    WriteStocksAppend(shop, location, done, rest);
  }

  /** One pass of the scheduled job (the cron callback). */
  method RunStockPass(shop: Shopify.Api, bill: SmartBill.Provider, env: Env) returns (calls: seq<Call>, outcome: PassOutcome)
    ensures Pass(calls, outcome) == StockPass(shop, bill, env)
  {
    var list := Shopify.ListRecentVariantSkus(shop, 250);
    calls := ShopCalls(list.requests);
    if list.result.Err? {
      return calls, Failed(list.result.error);
    }
    var skus := SyncSkus(list.result.value);
    if |skus| == 0 {
      return calls, NoSkus;
    }
    var stocks := SmartBill.FetchStocksBySkus(bill, SmartBill.ConfigOf(env), skus);
    calls := calls + BillCalls(stocks.requests);
    if stocks.result.Err? {
      return calls, Failed(stocks.result.error);
    }
    var loc := Shopify.GetLocationId(shop, EnvValue(env, "SHOPIFY_LOCATION_ID"));
    calls := calls + ShopCalls(loc.requests);
    if loc.result.Err? {
      return calls, Failed(loc.result.error);
    }
    var w := RunWrites(shop, loc.result.value, stocks.result.value);
    calls := calls + w.calls;
    outcome := if w.error.Some? then Failed(w.error.value) else Synced;
  }

  /** The body of the job's loop for one entry. */
  method SyncEntry(shop: Shopify.Api, location: Value, e: SmartBill.Entry) returns (w: Writes)
    ensures w == WriteOne(shop, location, e)
  {
    var look := Shopify.GetInventoryItemIdBySku(shop, e.code);
    var calls := ShopCalls(look.requests);
    if look.result.Err? {
      return Writes(calls, Some(look.result.error));
    }
    var item := look.result.value;
    if Truthy(item) {
      var write := Shopify.UpdateInventoryLevel(shop, item, location, e.stock);
      calls := calls + ShopCalls(write.requests);
      if write.result.Err? {
        return Writes(calls, Some(write.result.error));
      }
    }
    w := Writes(calls, None);
  }

  /** The `for … of Object.entries(stocks)` loop of the job. */
  method RunWrites(shop: Shopify.Api, location: Value, es: seq<SmartBill.Entry>) returns (w: Writes)
    ensures w == WriteStocks(shop, location, es)
  {
    var calls: seq<Call> := [];
    var i := 0;
    while i < |es|
      invariant 0 <= i <= |es|
      invariant Then(Writes(calls, None), WriteStocks(shop, location, es[i..])) == WriteStocks(shop, location, es)
    {
      WriteStocksUnfold(shop, location, es, i);
      var one := SyncEntry(shop, location, es[i]);
      ThenStep(calls, one, WriteStocks(shop, location, es[i + 1..]), WriteStocks(shop, location, es));
      calls := calls + one.calls;
      if one.error.Some? {
        return Writes(calls, one.error);
      }
      i := i + 1;
    }
    assert es[i..] == [];
    w := Writes(calls, None);
  }
}

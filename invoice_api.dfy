/**
 * The four JSON endpoints of `InvoiceAPI` as functions over an abstract
 * book of invoices and payments: the authentication guard, the payload
 * normalisation, the per-item result loop and the decision rules of each
 * item.  What the accounting module does with a record it is asked to
 * create or write is an oracle that may refuse with a message.
 */
module InvoiceApi {
  import opened Wrappers
  import opened Text
  import opened ApiAuth

  /** A JSON value as the endpoints receive it; numbers are integers here. */
  datatype Json =
    | JNull
    | JBool(b: bool)
    | JInt(i: int)
    | JStr(s: string)
    | JArr(items: seq<Json>)
    | JObj(fields: map<string, Json>)

  /** Python truthiness of a decoded JSON value. */
  predicate Truthy(j: Json) {
    match j
    case JNull => false
    case JBool(b) => b
    case JInt(i) => i != 0
    case JStr(s) => s != ""
    case JArr(xs) => xs != []
    case JObj(m) => m != map[]
  }

  /** Python's name for the type of a decoded JSON value. */
  function TypeName(j: Json): string {
    match j
    case JNull => "NoneType"
    case JBool(_) => "bool"
    case JInt(_) => "int"
    case JStr(_) => "str"
    case JArr(_) => "list"
    case JObj(_) => "dict"
  }

  /** The `AttributeError` text of `x.get(...)` on a value that is not a dict. */
  function NoGet(j: Json): string {
    "'" + TypeName(j) + "' object has no attribute 'get'"
  }

  /** The `TypeError` text of `for x in v` on a value that cannot be iterated. */
  function NotIterable(j: Json): string {
    "'" + TypeName(j) + "' object is not iterable"
  }

  /** `d.get(key, default)` on a dict. */
  function GetOr(fields: map<string, Json>, key: string, default: Json): Json {
    if key in fields then fields[key] else default
  }

  /** `d.get(key)` on a dict. */
  function Get(fields: map<string, Json>, key: string): Json {
    GetOr(fields, key, JNull)
  }

  // ------------------------------------------------------------ the envelope

  /**
   * `data = post.get('data') or post` and then
   * `data if isinstance(data, list) else [data]`.
   */
  function Normalize(post: map<string, Json>): (items: seq<Json>)
    ensures items != []
  {
    var data := if "data" in post && Truthy(post["data"]) then post["data"] else JObj(post);
    if data.JArr? then data.items else [data]
  }

  const AuthFailedText := "Authentication failed"
  const NotFoundText := "Invoice not found"

  /** One entry of `results`: a success dict, or `{'error': str(e)}`. */
  datatype Entry =
    | Made(id: nat, name: string)
    | Updated(id: nat)
    | Paid(paymentId: nat)
    | Error(message: string)

  /** One row of the `invoices` list returned by the listing. */
  datatype Listed = Listed(id: nat, name: string, state: string, amountTotal: int)

  /**
   * An endpoint's answer: `{'error': message}`, `{'results': …}`,
   * `{'invoices': …}`, or an exception the listing does not catch.
   */
  datatype Response =
    | ErrorReply(error: string)
    | Results(entries: seq<Entry>)
    | Invoices(rows: seq<Listed>)
    | Raised

  /** `{'error': 'Authentication failed'}`, the answer to a request without a valid key. */
  const AuthFailed: Response := ErrorReply(AuthFailedText)

  // ------------------------------------------------------------ the books

  /** One `(0, 0, {...})` command of `invoice_line_ids`. */
  datatype LineVals = LineVals(name: Json, product: Json, quantity: Json, priceUnit: Json)

  /** The `vals` of `account.move.create`; no lines means no `invoice_line_ids` key. */
  datatype MoveVals = MoveVals(moveType: Json, partner: Json, invoiceDate: Json, lines: seq<LineVals>)

  /** What the accounting module decides for a new invoice. */
  datatype MoveFacts = MoveFacts(name: string, state: string, amountTotal: int, residual: int)

  datatype Move = Move(id: nat, moveType: Json, partner: Json, invoiceDate: Json, lines: seq<LineVals>,
                       name: string, state: string, amountTotal: int, residual: int)

  /** The `vals` of `account.payment.create`. */
  datatype PaymentVals = PaymentVals(paymentType: string, partner: Json, amount: Json,
                                     journal: Json, date: Json, paymentMethod: Json)

  datatype Payment = Payment(id: nat, vals: PaymentVals)

  datatype Books = Books(moves: seq<Move>, payments: seq<Payment>)

  /**
   * How the accounting module answers, acting as a given user: to a create
   * (its facts, or the text of the exception), to a write of the selected
   * values, and to a payment create.
   */
  datatype Oracles = Oracles(
    createMove: (nat, seq<Move>, MoveVals) -> Result<MoveFacts>,
    writeMove: (nat, Move, Option<Json>, Option<Json>) -> Option<string>,
    createPayment: (nat, seq<Payment>, PaymentVals) -> Option<string>)

  /** A fresh database id: greater than the id of every record in use. */
  function NextId<T>(records: seq<T>, id: T -> nat): (n: nat)
    ensures forall k :: 0 <= k < |records| ==> id(records[k]) < n
  {
    if records == [] then 1
    else
      var rest := NextId(records[..|records| - 1], id);
      var last := id(records[|records| - 1]);
      assert forall k :: 0 <= k < |records| - 1 ==> records[k] == records[..|records| - 1][k];
      if last < rest then rest else last + 1
  }

  function MoveId(m: Move): nat { m.id }
  function PaymentId(p: Payment): nat { p.id }

  /**
   * `browse(id).exists()`: the position of the invoice with that id; an id
   * that is not an integer finds nothing.
   */
  function Find(moves: seq<Move>, id: Json): (r: Option<nat>)
    ensures r.Some? ==> r.value < |moves| && id == JInt(moves[r.value].id)
    ensures r.None? ==> forall k :: 0 <= k < |moves| ==> id != JInt(moves[k].id)
  {
    if moves == [] then None
    else if id == JInt(moves[0].id) then Some(0)
    else match Find(moves[1..], id)
      case None => None
      case Some(k) => Some(k + 1)
  }

  // ------------------------------------------------------------ create

  /** One line command: `l.get('name') or ''`, and the defaults 1 and 0 of quantity and price. */
  function LineOf(l: map<string, Json>): LineVals {
    var name := Get(l, "name");
    LineVals(if Truthy(name) then name else JStr(""), Get(l, "product_id"),
             GetOr(l, "quantity", JInt(1)), GetOr(l, "price_unit", JInt(0)))
  }

  /** The line commands of a sequence of line values, or the error of the first that is not a dict. */
  function LinesVals(ls: seq<Json>): Result<seq<LineVals>>
    decreases |ls|
  {
    if ls == [] then Success([])
    else match LinesVals(ls[..|ls| - 1])
      case Failure(e) => Failure(e)
      case Success(done) =>
        var l := ls[|ls| - 1];
        if l.JObj? then Success(done + [LineOf(l.fields)]) else Failure(NoGet(l))
  }

  /**
   * What `for l in lines` visits: a list's items; a text's characters and a
   * dict's keys are all texts, on which `l.get` raises; other values raise
   * when iterated.
   */
  function LineItems(lines: Json): (r: Result<seq<Json>>)
    ensures lines.JArr? ==> r == Success(lines.items)
    ensures r.Success? && !lines.JArr? ==> r.value == []
    ensures lines == JStr("") || lines == JObj(map[]) ==> r == Success([])
    ensures (lines.JStr? && lines.s != "") || (lines.JObj? && lines.fields != map[]) ==> r == Failure(NoGet(JStr("")))
    ensures !lines.JArr? && !lines.JStr? && !lines.JObj? ==> r == Failure(NotIterable(lines))
  {
    match lines
    case JArr(items) => Success(items)
    case JStr(s) => if s == "" then Success([]) else Failure(NoGet(JStr("")))
    case JObj(m) => if m == map[] then Success([]) else Failure(NoGet(JStr("")))
    case _ => Failure(NotIterable(lines))
  }

  /** The `vals` built for one item of `create_invoices`. */
  function MoveValsOf(inv: Json): (r: Result<MoveVals>)
    ensures !inv.JObj? ==> r == Failure(NoGet(inv))
    ensures inv.JObj? && "lines" !in inv.fields ==> r.Success? && r.value.lines == []
  {
    if !inv.JObj? then Failure(NoGet(inv))
    else
      var f := inv.fields;
      match LineItems(GetOr(f, "lines", JArr([])))
      case Failure(e) => Failure(e)
      case Success(ls) =>
        match LinesVals(ls)
        case Failure(e) => Failure(e)
        case Success(lines) =>
          Success(MoveVals(GetOr(f, "move_type", JStr("out_invoice")), Get(f, "partner_id"),
                           Get(f, "invoice_date"), lines))
  }

  /** The entry an item yields and the books after it. */
  datatype Step = Step(entry: Entry, books: Books)

  /** One item of `create_invoices`. */
  function CreateItem(b: Books, o: Oracles, user: nat, inv: Json): (s: Step)
    ensures s.entry.Made? || s.entry.Error?
    ensures s.entry.Error? ==> s.books == b
    ensures s.entry.Made? ==> s.books.payments == b.payments && |s.books.moves| == |b.moves| + 1
  {
    match MoveValsOf(inv)
    case Failure(e) => Step(Error(e), b)
    case Success(vals) =>
      match o.createMove(user, b.moves, vals)
      case Failure(e) => Step(Error(e), b)
      case Success(f) =>
        var id := NextId(b.moves, MoveId);
        var mv := Move(id, vals.moveType, vals.partner, vals.invoiceDate, vals.lines,
                       f.name, f.state, f.amountTotal, f.residual);
        Step(Made(id, f.name), b.(moves := b.moves + [mv]))
  }

  // ------------------------------------------------------------ update

  /** A value `update_invoices` writes: only a truthy one. */
  function Selected(v: Json): Option<Json> {
    if Truthy(v) then Some(v) else None
  }

  /** The invoice after a successful write of the selected values. */
  function Written(m: Move, partner: Option<Json>, date: Option<Json>): Move {
    m.(partner := if partner.Some? then partner.value else m.partner,
       invoiceDate := if date.Some? then date.value else m.invoiceDate)
  }

  /** One item of `update_invoices`. */
  function UpdateItem(b: Books, o: Oracles, user: nat, inv: Json): (s: Step)
    ensures s.entry.Updated? || s.entry.Error?
    ensures s.entry.Error? ==> s.books == b
    ensures s.books.payments == b.payments && |s.books.moves| == |b.moves|
  {
    if !inv.JObj? then Step(Error(NoGet(inv)), b)
    else
      var f := inv.fields;
      match Find(b.moves, Get(f, "id"))
      case None => Step(Error(NotFoundText), b)
      case Some(k) =>
        var mv := b.moves[k];
        var partner := Selected(Get(f, "partner_id"));
        var date := Selected(Get(f, "invoice_date"));
        if partner.None? && date.None? then Step(Updated(mv.id), b)
        else match o.writeMove(user, mv, partner, date)
          case Some(e) => Step(Error(e), b)
          case None => Step(Updated(mv.id), b.(moves := b.moves[k := Written(mv, partner, date)]))
  }

  // ------------------------------------------------------------ payments

  /** `'inbound' if move.move_type == 'out_invoice' else 'outbound'`. */
  function PaymentType(moveType: Json): (t: string)
    ensures t == "inbound" <==> moveType == JStr("out_invoice")
    ensures t == "outbound" <==> moveType != JStr("out_invoice")
  {
    if moveType == JStr("out_invoice") then "inbound" else "outbound"
  }

  /** The payment `vals`; an absent or zero amount falls back to the invoice's residual. */
  function PaymentValsOf(mv: Move, p: map<string, Json>): PaymentVals {
    var amount := Get(p, "amount");
    PaymentVals(PaymentType(mv.moveType), mv.partner,
                if Truthy(amount) then amount else JInt(mv.residual),
                Get(p, "journal_id"), Get(p, "payment_date"), Get(p, "payment_method_id"))
  }

  /** One item of `register_payments`. */
  function RegisterItem(b: Books, o: Oracles, user: nat, p: Json): (s: Step)
    ensures s.entry.Paid? || s.entry.Error?
    ensures s.entry.Error? ==> s.books == b
    ensures s.books.moves == b.moves
    ensures s.entry.Paid? ==> |s.books.payments| == |b.payments| + 1
  {
    if !p.JObj? then Step(Error(NoGet(p)), b)
    else
      match Find(b.moves, Get(p.fields, "invoice_id"))
      case None => Step(Error(NotFoundText), b)
      case Some(k) =>
        var pv := PaymentValsOf(b.moves[k], p.fields);
        match o.createPayment(user, b.payments, pv)
        case Some(e) => Step(Error(e), b)
        case None =>
          var id := NextId(b.payments, PaymentId);
          Step(Paid(id), b.(payments := b.payments + [Payment(id, pv)]))
  }

  // ------------------------------------------------------------ the batch loop

  datatype Endpoint = CreateInvoices | UpdateInvoices | RegisterPayments

  function Item(kind: Endpoint, b: Books, o: Oracles, user: nat, x: Json): Step {
    match kind
    case CreateInvoices => CreateItem(b, o, user, x)
    case UpdateInvoices => UpdateItem(b, o, user, x)
    case RegisterPayments => RegisterItem(b, o, user, x)
  }

  datatype Batch = Batch(entries: seq<Entry>, books: Books)

  /** `for inv in invoices: try … except Exception as e: results.append({'error': str(e)})`. */
  function RunItems(kind: Endpoint, b: Books, o: Oracles, user: nat, items: seq<Json>): (r: Batch)
    ensures |r.entries| == |items|
    decreases |items|
  {
    if items == [] then Batch([], b)
    else
      var prev := RunItems(kind, b, o, user, items[..|items| - 1]);
      var s := Item(kind, prev.books, o, user, items[|items| - 1]);
      Batch(prev.entries + [s.entry], s.books)
  }

  /** The three batch endpoints: the guard, then one entry per normalised item. */
  function Serve(kind: Endpoint, b: Books, o: Oracles, h: Headers, keys: seq<ApiKey>,
                 post: map<string, Json>): (r: (Response, Books))
    ensures r.0 == AuthFailed <==> UserFromKey(h, keys).None?
    ensures r.0 == AuthFailed ==> r.1 == b
    ensures r.0.Results? ==> |r.0.entries| == |Normalize(post)|
  {
    match UserFromKey(h, keys)
    case None => (AuthFailed, b)
    case Some(user) =>
      var r := RunItems(kind, b, o, user, Normalize(post));
      (Results(r.entries), r.books)
  }

  // ------------------------------------------------------------ listing

  const ListLimit := 500

  /** `[('partner_id', '=', pid)]` when a partner is given, else no filter. */
  predicate Listable(m: Move, partner: Option<int>) {
    partner.None? || m.partner == JInt(partner.value)
  }

  /** The invoices the domain selects, in table order. */
  function Matching(moves: seq<Move>, partner: Option<int>): seq<Move>
    decreases |moves|
  {
    if moves == [] then []
    else
      var rest := Matching(moves[..|moves| - 1], partner);
      if Listable(moves[|moves| - 1], partner) then rest + [moves[|moves| - 1]] else rest
  }

  /** `search(domain, limit=500)`: the first 500 of them. */
  function Search(moves: seq<Move>, partner: Option<int>): (r: seq<Move>)
    ensures |r| <= ListLimit && r <= Matching(moves, partner)
    ensures |r| < ListLimit ==> r == Matching(moves, partner)
  {
    var all := Matching(moves, partner);
    if |all| <= ListLimit then all else all[..ListLimit]
  }

  /** Python's `int(v)` on a decoded JSON value; `None` where it raises. */
  function PyInt(v: Json): Option<int> {
    match v
    case JInt(i) => Some(i)
    case JBool(b) => Some(if b then 1 else 0)
    case JStr(s) => ParseInt(s)
    case _ => None
  }

  function ListRow(m: Move): Listed {
    Listed(m.id, m.name, m.state, m.amountTotal)
  }

  function ListRows(ms: seq<Move>): (rows: seq<Listed>)
    ensures |rows| == |ms|
    decreases |ms|
  {
    if ms == [] then [] else ListRows(ms[..|ms| - 1]) + [ListRow(ms[|ms| - 1])]
  }

  /** `list_invoices`; the partner filter is read only when `partner_id` is truthy. */
  function ListInvoices(b: Books, h: Headers, keys: seq<ApiKey>, kw: map<string, Json>): (r: Response)
    ensures r == AuthFailed <==> UserFromKey(h, keys).None?
    ensures r.Raised? ==> Truthy(Get(kw, "partner_id"))
    ensures r.Invoices? ==> |r.rows| <= ListLimit
  {
    if UserFromKey(h, keys).None? then AuthFailed
    else
      var p := Get(kw, "partner_id");
      if Truthy(p) && PyInt(p).None? then Raised
      else
        var partner := if Truthy(p) then PyInt(p) else None;
        Invoices(ListRows(Search(b.moves, partner)))
  }
}

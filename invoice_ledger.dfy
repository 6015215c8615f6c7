/**
 * The endpoints of `InvoiceAPI` as they run: a ledger object holds the
 * invoices and payments the accounting module stores, and each endpoint
 * builds its `results` list item by item, updating the ledger through
 * the accounting module's answers.  Every method is proved against the
 * functions of InvoiceApi, whose properties InvoiceProperties proves.
 */
module InvoiceEndpoints {
  import opened Wrappers
  import opened ApiAuth
  import opened InvoiceApi
  import InvoiceProperties

  /**
   * `for l in lines: aml.append((0, 0, {...}))`: the line commands, or the
   * error of the first line that is not a dict.
   */
  method LineCommands(ls: seq<Json>) returns (r: Result<seq<LineVals>>)
    ensures r == LinesVals(ls)
  {
    var aml: seq<LineVals> := [];
    var i := 0;
    while i < |ls|
      invariant 0 <= i <= |ls|
      invariant LinesVals(ls[..i]) == Success(aml)
    {
      var l := ls[i];
      assert ls[..i + 1][..i] == ls[..i];
      if !l.JObj? {
        InvoiceProperties.LinesFailureSticks(ls, i + 1);
        return Failure(NoGet(l));
      }
      aml := aml + [LineOf(l.fields)];
      i := i + 1;
    }
    assert ls[..i] == ls;
    r := Success(aml);
  }

  /** The invoices and payments of the database, and the accounting module that guards them. */
  class Ledger {
    var moves: seq<Move>
    var payments: seq<Payment>
    const oracles: Oracles

    constructor (o: Oracles)
      ensures moves == [] && payments == [] && oracles == o
      ensures Valid()
    {
      moves := [];
      payments := [];
      oracles := o;
    }

    function Books(): InvoiceApi.Books
      reads this
    {
      InvoiceApi.Books(moves, payments)
    }

    /** The database invariant: invoice ids are distinct, and so are payment ids. */
    ghost predicate Valid()
      reads this
    {
      InvoiceProperties.UniqueIds(Books())
    }

    /** One item of `create_invoices`. */
    method CreateInvoice(user: nat, inv: Json) returns (e: Entry)
      modifies this
      ensures Step(e, Books()) == CreateItem(old(Books()), oracles, user, inv)
      ensures old(Valid()) ==> Valid() && InvoiceProperties.Extends(old(Books()), Books())
    {
      if Valid() {
        InvoiceProperties.ItemKeepsIds(CreateInvoices, Books(), oracles, user, inv);
      }
      if !inv.JObj? {
        return Error(NoGet(inv));
      }
      var f := inv.fields;
      var items := LineItems(GetOr(f, "lines", JArr([])));
      if items.Failure? {
        return Error(items.error);
      }
      var lines := LineCommands(items.value);
      if lines.Failure? {
        return Error(lines.error);
      }
      var vals := MoveVals(GetOr(f, "move_type", JStr("out_invoice")), Get(f, "partner_id"),
                           Get(f, "invoice_date"), lines.value);
      var answer := oracles.createMove(user, moves, vals);
      if answer.Failure? {
        return Error(answer.error);
      }
      var id := NextId(moves, MoveId);
      var facts := answer.value;
      moves := moves + [Move(id, vals.moveType, vals.partner, vals.invoiceDate, vals.lines,
                             facts.name, facts.state, facts.amountTotal, facts.residual)];
      e := Made(id, facts.name);
    }

    /** One item of `update_invoices`. */
    method UpdateInvoice(user: nat, inv: Json) returns (e: Entry)
      modifies this
      ensures Step(e, Books()) == UpdateItem(old(Books()), oracles, user, inv)
      ensures old(Valid()) ==> Valid() && InvoiceProperties.Extends(old(Books()), Books())
    {
      if Valid() {
        InvoiceProperties.ItemKeepsIds(UpdateInvoices, Books(), oracles, user, inv);
      }
      if !inv.JObj? {
        return Error(NoGet(inv));
      }
      var f := inv.fields;
      var found := Find(moves, Get(f, "id"));
      if found.None? {
        return Error(NotFoundText);
      }
      var k := found.value;
      var mv := moves[k];
      var partner := Selected(Get(f, "partner_id"));
      var date := Selected(Get(f, "invoice_date"));
      if partner.Some? || date.Some? {
        var refused := oracles.writeMove(user, mv, partner, date);
        if refused.Some? {
          return Error(refused.value);
        }
        moves := moves[k := Written(mv, partner, date)];
      }
      e := Updated(mv.id);
    }

    /** One item of `register_payments`. */
    method RegisterPayment(user: nat, p: Json) returns (e: Entry)
      modifies this
      ensures Step(e, Books()) == RegisterItem(old(Books()), oracles, user, p)
      ensures old(Valid()) ==> Valid() && InvoiceProperties.Extends(old(Books()), Books())
    {
      if Valid() {
        InvoiceProperties.ItemKeepsIds(RegisterPayments, Books(), oracles, user, p);
      }
      if !p.JObj? {
        return Error(NoGet(p));
      }
      var found := Find(moves, Get(p.fields, "invoice_id"));
      if found.None? {
        return Error(NotFoundText);
      }
      var pv := PaymentValsOf(moves[found.value], p.fields);
      var refused := oracles.createPayment(user, payments, pv);
      if refused.Some? {
        return Error(refused.value);
      }
      var id := NextId(payments, PaymentId);
      payments := payments + [Payment(id, pv)];
      e := Paid(id);
    }

    /** The body of the `try` of the endpoint `kind`. */
    method ProcessItem(kind: Endpoint, user: nat, x: Json) returns (e: Entry)
      modifies this
      ensures Step(e, Books()) == Item(kind, old(Books()), oracles, user, x)
      ensures old(Valid()) ==> Valid() && InvoiceProperties.Extends(old(Books()), Books())
    {
      match kind
      case CreateInvoices => e := CreateInvoice(user, x);
      case UpdateInvoices => e := UpdateInvoice(user, x);
      case RegisterPayments => e := RegisterPayment(user, x);
    }

    /** `for inv in invoices: try … except …`: one entry per item, in order. */
    method ProcessItems(kind: Endpoint, user: nat, items: seq<Json>) returns (entries: seq<Entry>)
      modifies this
      ensures Batch(entries, Books()) == RunItems(kind, old(Books()), oracles, user, items)
      ensures old(Valid()) ==> Valid() && InvoiceProperties.Extends(old(Books()), Books())
    {
      ghost var b0 := Books();
      entries := [];
      var i := 0;
      while i < |items|
        invariant 0 <= i <= |items|
        invariant Batch(entries, Books()) == RunItems(kind, b0, oracles, user, items[..i])
      {
        ghost var before := Books();
        var e := ProcessItem(kind, user, items[i]);
        BatchStep(kind, b0, oracles, user, items, i, entries, before, Step(e, Books()));
        entries := entries + [e];
        i := i + 1;
      }
      assert items[..i] == items;
      if InvoiceProperties.UniqueIds(b0) {
        InvoiceProperties.BatchKeepsIds(kind, b0, oracles, user, items);
      }
    }

    /** `create_invoices`, `update_invoices` and `register_payments`. */
    method Handle(kind: Endpoint, h: Headers, keys: seq<ApiKey>, post: map<string, Json>)
      returns (resp: Response)
      requires Valid()
      modifies this
      ensures (resp, Books()) == Serve(kind, old(Books()), oracles, h, keys, post)
      ensures Valid() && InvoiceProperties.Extends(old(Books()), Books())
    {
      var user := UserFromKey(h, keys);
      if user.None? {
        return AuthFailed;
      }
      InvoiceProperties.BatchKeepsIds(kind, Books(), oracles, user.value, Normalize(post));
      var entries := ProcessItems(kind, user.value, Normalize(post));
      resp := Results(entries);
    }

    /** `list_invoices`: one row per invoice the search returns; the ledger is only read. */
    method List(h: Headers, keys: seq<ApiKey>, kw: map<string, Json>) returns (resp: Response)
      ensures resp == ListInvoices(Books(), h, keys, kw)
    {
      if UserFromKey(h, keys).None? {
        return AuthFailed;
      }
      var p := Get(kw, "partner_id");
      var partner: Option<int> := None;
      if Truthy(p) {
        partner := PyInt(p);
        if partner.None? {
          return Raised;
        }
      }
      var invs := Search(moves, partner);
      var out: seq<Listed> := [];
      for i := 0 to |invs|
        invariant out == ListRows(invs[..i])
      {
        assert invs[..i + 1][..i] == invs[..i];
        out := out + [ListRow(invs[i])];
      }
      assert invs[..|invs|] == invs;
      resp := Invoices(out);
    }
  }

  /** One more item extends the batch by its entry and its books. */
  lemma BatchStep(kind: Endpoint, b0: Books, o: Oracles, user: nat, items: seq<Json>, i: nat,
                  entries: seq<Entry>, before: Books, s: Step)
    requires i < |items|
    requires Batch(entries, before) == RunItems(kind, b0, o, user, items[..i])
    requires s == Item(kind, before, o, user, items[i])
    ensures Batch(entries + [s.entry], s.books) == RunItems(kind, b0, o, user, items[..i + 1])
  {
    assert items[..i + 1][..i] == items[..i];
  }
}

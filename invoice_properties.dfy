/** What the invoice endpoints promise, proved about the functions of InvoiceApi. */
module InvoiceProperties {
  import opened Wrappers
  import opened Text
  import opened ApiAuth
  import opened InvoiceApi

  // ------------------------------------------------------------ the guard

  /**
   * Without an authenticated user every batch endpoint answers exactly
   * `{'error': 'Authentication failed'}` and leaves the books alone; with
   * one it always answers with a results list.
   */
  lemma GuardFirst(kind: Endpoint, b: Books, o: Oracles, h: Headers, keys: seq<ApiKey>,
                   post: map<string, Json>)
    ensures UserFromKey(h, keys).None? <==> Serve(kind, b, o, h, keys, post).0 == AuthFailed
    ensures UserFromKey(h, keys).None? ==> Serve(kind, b, o, h, keys, post).1 == b
    ensures UserFromKey(h, keys).Some? ==> Serve(kind, b, o, h, keys, post).0.Results?
  {
  }

  /** The listing has the same guard. */
  lemma ListGuard(b: Books, h: Headers, keys: seq<ApiKey>, kw: map<string, Json>)
    ensures UserFromKey(h, keys).None? <==> ListInvoices(b, h, keys, kw) == AuthFailed
  {
  }

  // ------------------------------------------------------------ the envelope

  /** A non-empty list under `data` is processed as it is. */
  lemma ListPayloadAsIs(post: map<string, Json>, items: seq<Json>)
    requires "data" in post && post["data"] == JArr(items) && items != []
    ensures Normalize(post) == items
  {
  }

  /** Any other truthy `data` is wrapped as the single item. */
  lemma OtherPayloadWrapped(post: map<string, Json>)
    requires "data" in post && Truthy(post["data"]) && !post["data"].JArr?
    ensures Normalize(post) == [post["data"]]
  {
  }

  /**
   * Without a truthy `data`, the whole parameter dict is the single item
   * (an empty list under `data` included, since it is falsy).
   */
  lemma NoDataUsesParams(post: map<string, Json>)
    requires !("data" in post && Truthy(post["data"]))
    ensures Normalize(post) == [JObj(post)]
  {
  }

  // ------------------------------------------------------------ the batch loop

  /** Every item's entry is what that item yields against the books the items before it left. */
  lemma {:induction false} EntryAt(kind: Endpoint, b: Books, o: Oracles, user: nat, items: seq<Json>, k: nat)
    requires k < |items|
    ensures RunItems(kind, b, o, user, items).entries[k]
         == Item(kind, RunItems(kind, b, o, user, items[..k]).books, o, user, items[k]).entry
    decreases |items|
  {
    if k < |items| - 1 {
      var init := items[..|items| - 1];
      assert init[..k] == items[..k];
      assert init[k] == items[k];
      EntryAt(kind, b, o, user, init, k);
    } else {
      assert items[..|items| - 1] == items[..k];
    }
  }

  /** The entries of a prefix of the items are a prefix of the entries. */
  lemma {:induction false} PrefixEntries(kind: Endpoint, b: Books, o: Oracles, user: nat, items: seq<Json>, j: nat)
    requires j <= |items|
    ensures RunItems(kind, b, o, user, items[..j]).entries == RunItems(kind, b, o, user, items).entries[..j]
    decreases |items|
  {
    if j < |items| {
      var init := items[..|items| - 1];
      assert init[..j] == items[..j];
      PrefixEntries(kind, b, o, user, init, j);
    } else {
      assert items[..j] == items;
    }
  }

  /** An item that fails leaves the books as they were. */
  lemma ErrorChangesNothing(kind: Endpoint, b: Books, o: Oracles, user: nat, x: Json)
    ensures Item(kind, b, o, user, x).entry.Error? ==> Item(kind, b, o, user, x).books == b
  {
  }

  /** Each endpoint's success entry has its own shape. */
  lemma EntryShapes(kind: Endpoint, b: Books, o: Oracles, user: nat, x: Json)
    ensures var e := Item(kind, b, o, user, x).entry;
            && (kind == CreateInvoices ==> e.Made? || e.Error?)
            && (kind == UpdateInvoices ==> e.Updated? || e.Error?)
            && (kind == RegisterPayments ==> e.Paid? || e.Error?)
  {
  }

  lemma RunItemsSnoc(kind: Endpoint, b: Books, o: Oracles, user: nat, items: seq<Json>, x: Json)
    ensures var prev := RunItems(kind, b, o, user, items);
            var s := Item(kind, prev.books, o, user, x);
            RunItems(kind, b, o, user, items + [x]) == Batch(prev.entries + [s.entry], s.books)
  {
    assert (items + [x])[..|items|] == items;
  }

  /**
   * A failing item does not disturb the others: removing it from the
   * payload removes its entry and changes no other entry and not the
   * final books.
   */
  lemma {:induction false} FailedItemIsInert(kind: Endpoint, b: Books, o: Oracles, user: nat,
                                             pre: seq<Json>, x: Json, post: seq<Json>)
    requires Item(kind, RunItems(kind, b, o, user, pre).books, o, user, x).entry.Error?
    ensures var full := RunItems(kind, b, o, user, pre + [x] + post);
            var without := RunItems(kind, b, o, user, pre + post);
            && without.books == full.books
            && without.entries == full.entries[..|pre|] + full.entries[|pre| + 1..]
    decreases |post|
  {
    var before := RunItems(kind, b, o, user, pre);
    if post == [] {
      assert pre + [x] + post == pre + [x];
      assert pre + post == pre;
      RunItemsSnoc(kind, b, o, user, pre, x);
      ErrorChangesNothing(kind, before.books, o, user, x);
    } else {
      var rest := post[..|post| - 1];
      var y := post[|post| - 1];
      var full0 := RunItems(kind, b, o, user, pre + [x] + rest);
      var without0 := RunItems(kind, b, o, user, pre + rest);
      FailedItemIsInert(kind, b, o, user, pre, x, rest);
      var s := Item(kind, full0.books, o, user, y);
      var full := RunItems(kind, b, o, user, pre + [x] + post);
      var without := RunItems(kind, b, o, user, pre + post);
      assert full == Batch(full0.entries + [s.entry], s.books) by {
        SnocSplit(pre + [x], post);
        RunItemsSnoc(kind, b, o, user, pre + [x] + rest, y);
      }
      assert without == Batch(without0.entries + [s.entry], s.books) by {
        SnocSplit(pre, post);
        RunItemsSnoc(kind, b, o, user, pre + rest, y);
      }
      DropSnoc(full0.entries, s.entry, |pre|);
    }
  }

  /** Splitting the last element off a non-empty tail. */
  lemma SnocSplit<T>(a: seq<T>, post: seq<T>)
    requires post != []
    ensures a + post == (a + post[..|post| - 1]) + [post[|post| - 1]]
  {
    assert post == post[..|post| - 1] + [post[|post| - 1]];
  }

  /** Dropping position `p < |e|` commutes with appending at the end. */
  lemma DropSnoc<T>(e: seq<T>, z: T, p: nat)
    requires p < |e|
    ensures (e + [z])[..p] + (e + [z])[p + 1..] == (e[..p] + e[p + 1..]) + [z]
  {
    assert (e + [z])[..p] == e[..p];
    assert (e + [z])[p + 1..] == e[p + 1..] + [z];
  }

  // ------------------------------------------------------------ create

  /** Line commands from a list of dicts: one per entry, in order. */
  lemma {:induction false} LinesOfDicts(ls: seq<Json>)
    requires forall i :: 0 <= i < |ls| ==> ls[i].JObj?
    ensures LinesVals(ls).Success? && |LinesVals(ls).value| == |ls|
    ensures forall i :: 0 <= i < |ls| ==> LinesVals(ls).value[i] == LineOf(ls[i].fields)
    decreases |ls|
  {
    if ls != [] {
      var init := ls[..|ls| - 1];
      assert forall i :: 0 <= i < |init| ==> init[i] == ls[i];
      LinesOfDicts(init);
    }
  }

  /** Once a prefix of the line values fails, the whole does, with the same error. */
  lemma {:induction false} LinesFailureSticks(ls: seq<Json>, n: nat)
    requires n <= |ls| && LinesVals(ls[..n]).Failure?
    ensures LinesVals(ls) == LinesVals(ls[..n])
    decreases |ls|
  {
    if n < |ls| {
      var init := ls[..|ls| - 1];
      assert init[..n] == ls[..n];
      LinesFailureSticks(init, n);
    } else {
      assert ls[..n] == ls;
    }
  }

  /** Otherwise the `AttributeError` of the first entry that is not a dict. */
  lemma FirstNonDictFails(ls: seq<Json>, j: nat)
    requires j < |ls| && !ls[j].JObj? && forall i :: 0 <= i < j ==> ls[i].JObj?
    ensures LinesVals(ls) == Failure(NoGet(ls[j]))
  {
    var pre := ls[..j];
    assert forall i :: 0 <= i < |pre| ==> pre[i].JObj? by {
      assert forall i :: 0 <= i < |pre| ==> pre[i] == ls[i];
    }
    LinesOfDicts(pre);
    assert LinesVals(ls[..j + 1]) == Failure(NoGet(ls[j])) by {
      assert ls[..j + 1][..j] == pre;
      assert ls[..j + 1][j] == ls[j];
    }
    LinesFailureSticks(ls, j + 1);
  }

  /** A created invoice gets an id no existing invoice has, and can then be found under it. */
  lemma CreatedIsFresh(b: Books, o: Oracles, user: nat, inv: Json)
    ensures var s := CreateItem(b, o, user, inv);
            s.entry.Made? ==>
              && Find(b.moves, JInt(s.entry.id)) == None
              && s.books.moves == b.moves + [s.books.moves[|b.moves|]]
              && s.books.moves[|b.moves|].id == s.entry.id
              && s.books.payments == b.payments
  {
    var s := CreateItem(b, o, user, inv);
    if s.entry.Made? {
      var vals := MoveValsOf(inv).value;
      var f := o.createMove(user, b.moves, vals).value;
      var mv := Move(NextId(b.moves, MoveId), vals.moveType, vals.partner, vals.invoiceDate, vals.lines,
                     f.name, f.state, f.amountTotal, f.residual);
      assert s.books.moves == b.moves + [mv];
    }
  }

  /** An item without `move_type` creates an `out_invoice`; one with it keeps the given value. */
  lemma MoveTypeDefault(inv: Json)
    requires inv.JObj? && MoveValsOf(inv).Success?
    ensures MoveValsOf(inv).value.moveType ==
            if "move_type" in inv.fields then inv.fields["move_type"] else JStr("out_invoice")
  {
  }

  // ------------------------------------------------------------ update

  /** An unknown id, for an update or a payment, gives `{'error': 'Invoice not found'}` and changes nothing. */
  lemma UnknownInvoice(b: Books, o: Oracles, user: nat, x: Json)
    requires x.JObj?
    ensures Find(b.moves, Get(x.fields, "id")).None? ==>
              UpdateItem(b, o, user, x) == Step(Error(NotFoundText), b)
    ensures Find(b.moves, Get(x.fields, "invoice_id")).None? ==>
              RegisterItem(b, o, user, x) == Step(Error(NotFoundText), b)
  {
  }

  /** With neither value truthy nothing is written, and the entry still reports the invoice. */
  lemma NothingToWrite(b: Books, o: Oracles, user: nat, inv: Json, k: nat)
    requires inv.JObj? && Find(b.moves, Get(inv.fields, "id")) == Some(k)
    requires !Truthy(Get(inv.fields, "partner_id")) && !Truthy(Get(inv.fields, "invoice_date"))
    ensures UpdateItem(b, o, user, inv) == Step(Updated(b.moves[k].id), b)
  {
  }

  /**
   * A successful update changes only the found invoice, and of it only the
   * partner (when `partner_id` is truthy) and the date (when `invoice_date`
   * is truthy).
   */
  lemma UpdateWritesOnlyTruthy(b: Books, o: Oracles, user: nat, inv: Json, k: nat)
    requires inv.JObj? && Find(b.moves, Get(inv.fields, "id")) == Some(k)
    requires UpdateItem(b, o, user, inv).entry.Updated?
    ensures var s := UpdateItem(b, o, user, inv);
            var p := Get(inv.fields, "partner_id");
            var d := Get(inv.fields, "invoice_date");
            && s.entry.id == b.moves[k].id
            && |s.books.moves| == |b.moves| && s.books.payments == b.payments
            && (forall j :: 0 <= j < |b.moves| && j != k ==> s.books.moves[j] == b.moves[j])
            && s.books.moves[k].partner == (if Truthy(p) then p else b.moves[k].partner)
            && s.books.moves[k].invoiceDate == (if Truthy(d) then d else b.moves[k].invoiceDate)
            && s.books.moves[k] == b.moves[k].(partner := s.books.moves[k].partner,
                                               invoiceDate := s.books.moves[k].invoiceDate)
  {
  }

  // ------------------------------------------------------------ payments

  /**
   * A registered payment is `inbound` exactly for an `out_invoice`, carries
   * the invoice's partner, and takes the given amount unless it is absent
   * or zero, when it takes the invoice's residual.
   */
  lemma PaymentFollowsInvoice(b: Books, o: Oracles, user: nat, p: Json, k: nat)
    requires p.JObj? && Find(b.moves, Get(p.fields, "invoice_id")) == Some(k)
    requires RegisterItem(b, o, user, p).entry.Paid?
    ensures var s := RegisterItem(b, o, user, p);
            var amount := Get(p.fields, "amount");
            && s.books.moves == b.moves
            && |s.books.payments| == |b.payments| + 1
            && s.books.payments[..|b.payments|] == b.payments
            && var pay := s.books.payments[|b.payments|];
            && pay.id == s.entry.paymentId
            && (pay.vals.paymentType == "inbound" <==> b.moves[k].moveType == JStr("out_invoice"))
            && pay.vals.partner == b.moves[k].partner
            && pay.vals.amount == (if Truthy(amount) then amount else JInt(b.moves[k].residual))
  {
    var s := RegisterItem(b, o, user, p);
    assert s.books.payments[..|b.payments|] == b.payments;
  }

  // ------------------------------------------------------------ database ids

  /** Invoice ids are distinct, and so are payment ids, as database ids are. */
  ghost predicate UniqueIds(b: Books) {
    && (forall i, j :: 0 <= i < j < |b.moves| ==> b.moves[i].id != b.moves[j].id)
    && (forall i, j :: 0 <= i < j < |b.payments| ==> b.payments[i].id != b.payments[j].id)
  }

  /** `after` keeps every invoice of `b` at its place under its id, and every payment as it was. */
  ghost predicate Extends(b: Books, after: Books) {
    && |b.moves| <= |after.moves| && |b.payments| <= |after.payments|
    && (forall k :: 0 <= k < |b.moves| ==> after.moves[k].id == b.moves[k].id)
    && (forall k :: 0 <= k < |b.payments| ==> after.payments[k] == b.payments[k])
  }

  /** Every item of every endpoint keeps ids distinct and loses no record. */
  lemma ItemKeepsIds(kind: Endpoint, b: Books, o: Oracles, user: nat, x: Json)
    requires UniqueIds(b)
    ensures UniqueIds(Item(kind, b, o, user, x).books) && Extends(b, Item(kind, b, o, user, x).books)
  {
    var s := Item(kind, b, o, user, x);
    if kind == UpdateInvoices && s.books != b {
      var k := Find(b.moves, Get(x.fields, "id")).value;
      assert s.books.moves == b.moves[k := s.books.moves[k]];
      assert s.books.moves[k].id == b.moves[k].id;
      assert forall j :: 0 <= j < |b.moves| ==> s.books.moves[j].id == b.moves[j].id;
    }
  }

  /** So does a whole batch. */
  lemma {:induction false} BatchKeepsIds(kind: Endpoint, b: Books, o: Oracles, user: nat, items: seq<Json>)
    requires UniqueIds(b)
    ensures UniqueIds(RunItems(kind, b, o, user, items).books)
    ensures Extends(b, RunItems(kind, b, o, user, items).books)
    decreases |items|
  {
    if items != [] {
      var prev := RunItems(kind, b, o, user, items[..|items| - 1]).books;
      BatchKeepsIds(kind, b, o, user, items[..|items| - 1]);
      ItemKeepsIds(kind, prev, o, user, items[|items| - 1]);
    }
  }

  // ------------------------------------------------------------ listing

  lemma {:induction false} MatchingSound(moves: seq<Move>, partner: Option<int>)
    ensures |Matching(moves, partner)| <= |moves|
    ensures forall i :: 0 <= i < |Matching(moves, partner)| ==>
              Listable(Matching(moves, partner)[i], partner) && Matching(moves, partner)[i] in moves
    decreases |moves|
  {
    if moves != [] {
      var init := moves[..|moves| - 1];
      MatchingSound(init, partner);
      forall m | m in init ensures m in moves {
        var i :| 0 <= i < |init| && init[i] == m;
        assert moves[i] == m;
      }
    }
  }

  /** Every invoice the filter accepts is selected. */
  lemma {:induction false} MatchingComplete(moves: seq<Move>, partner: Option<int>, m: Move)
    requires m in moves && Listable(m, partner)
    ensures m in Matching(moves, partner)
    decreases |moves|
  {
    var init := moves[..|moves| - 1];
    if m != moves[|moves| - 1] {
      var i :| 0 <= i < |moves| && moves[i] == m;
      assert init[i] == m;
      MatchingComplete(init, partner, m);
    }
  }

  /**
   * The selection keeps table order: selecting from two runs of invoices
   * one after the other is selecting from each.
   */
  lemma {:induction false} MatchingAppend(a: seq<Move>, b: seq<Move>, partner: Option<int>)
    ensures Matching(a + b, partner) == Matching(a, partner) + Matching(b, partner)
    decreases |b|
  {
    if b == [] {
      assert a + b == a;
    } else {
      var init, last := b[..|b| - 1], b[|b| - 1];
      assert (a + b)[..|a + b| - 1] == a + init && (a + b)[|a + b| - 1] == last;
      MatchingAppend(a, init, partner);
      var ma, mi := Matching(a, partner), Matching(init, partner);
      if Listable(last, partner) {
        assert ma + mi + [last] == ma + (mi + [last]);
      }
    }
  }

  lemma {:induction false} MatchingAll(moves: seq<Move>)
    ensures Matching(moves, None) == moves
    decreases |moves|
  {
    if moves != [] {
      MatchingAll(moves[..|moves| - 1]);
    }
  }

  /**
   * The listing returns at most 500 invoices, every one an invoice of the
   * books that the partner filter (if any) accepts: all the selected ones
   * in table order when there are at most 500, otherwise the first 500.
   */
  lemma ListingSound(b: Books, h: Headers, keys: seq<ApiKey>, kw: map<string, Json>)
    requires ListInvoices(b, h, keys, kw).Invoices?
    ensures var rows := ListInvoices(b, h, keys, kw).rows;
            var p := Get(kw, "partner_id");
            && |rows| <= ListLimit
            && forall i :: 0 <= i < |rows| ==>
                 exists m :: m in b.moves && rows[i] == ListRow(m)
                             && (Truthy(p) ==> m.partner == JInt(PyInt(p).value))
    ensures var rows := ListInvoices(b, h, keys, kw).rows;
            var p := Get(kw, "partner_id");
            var all := Matching(b.moves, if Truthy(p) then PyInt(p) else None);
            && (|all| <= ListLimit ==> rows == ListRows(all))
            && (|all| > ListLimit ==> rows == ListRows(all[..ListLimit]))
  {
    var p := Get(kw, "partner_id");
    var partner := if Truthy(p) then PyInt(p) else None;
    var all := Matching(b.moves, partner);
    var found := Search(b.moves, partner);
    MatchingSound(b.moves, partner);
    assert forall i :: 0 <= i < |found| ==> found[i] == all[i];
    var rows := ListRows(found);
    ListRowsAt(found);
    forall i | 0 <= i < |rows|
      ensures exists m :: m in b.moves && rows[i] == ListRow(m)
                          && (Truthy(p) ==> m.partner == JInt(PyInt(p).value))
    {
      var m := found[i];
      assert Listable(m, partner);
      assert m in b.moves && rows[i] == ListRow(m);
    }
  }

  lemma {:induction false} ListRowsAt(ms: seq<Move>)
    ensures forall i :: 0 <= i < |ms| ==> ListRows(ms)[i] == ListRow(ms[i])
    decreases |ms|
  {
    if ms != [] {
      var init := ms[..|ms| - 1];
      ListRowsAt(init);
      assert forall i :: 0 <= i < |init| ==> init[i] == ms[i];
    }
  }

  /** Without a partner filter, a book of at most 500 invoices is listed whole, in order. */
  lemma UnfilteredListsAll(b: Books, h: Headers, keys: seq<ApiKey>, kw: map<string, Json>)
    requires UserFromKey(h, keys).Some? && !Truthy(Get(kw, "partner_id")) && |b.moves| <= ListLimit
    ensures ListInvoices(b, h, keys, kw) == Invoices(ListRows(b.moves))
  {
    MatchingAll(b.moves);
  }

  /** A falsy `partner_id` lists exactly what no `partner_id` lists. */
  lemma FalsyPartnerIgnored(b: Books, h: Headers, keys: seq<ApiKey>, kw: map<string, Json>)
    requires !Truthy(Get(kw, "partner_id"))
    ensures ListInvoices(b, h, keys, kw) == ListInvoices(b, h, keys, kw - {"partner_id"})
  {
  }

  /** A truthy `partner_id` that `int()` rejects makes the listing raise. */
  lemma UnparsablePartnerRaises(b: Books, h: Headers, keys: seq<ApiKey>, kw: map<string, Json>)
    requires UserFromKey(h, keys).Some? && Truthy(Get(kw, "partner_id")) && PyInt(Get(kw, "partner_id")).None?
    ensures ListInvoices(b, h, keys, kw) == Raised
  {
  }

  /** A partner id given as text is parsed like `int()` does, surrounding whitespace allowed. */
  lemma TextPartnerParsed(b: Books, h: Headers, keys: seq<ApiKey>, kw: map<string, Json>, pid: int,
                          w1: string, w2: string)
    requires AllSpace(w1) && AllSpace(w2)
    requires UserFromKey(h, keys).Some? && "partner_id" in kw && kw["partner_id"] == JStr(w1 + IntToString(pid) + w2)
    ensures ListInvoices(b, h, keys, kw) == Invoices(ListRows(Search(b.moves, Some(pid))))
  {
    TrimPadded(w1, IntToString(pid), w2);
    SignedToString(pid);
  }
}

/** Properties of one import run, proved about the functions of EmployeeImport. */
module ImportProperties {
  import opened Wrappers
  import opened Text
  import opened EmployeeImport

  // ------------------------------------------------------------ outcome lists

  /** Every data row either created one employee or left one error line. */
  lemma {:induction false} CountsAddUp(os: seq<RowOutcome>)
    ensures CreatedCount(os) + |Messages(os)| == |os|
    ensures |CreatedRecords(os)| == CreatedCount(os)
  {
    if os != [] { CountsAddUp(os[..|os| - 1]); }
  }

  lemma {:induction false} CountsOfPrefix(os: seq<RowOutcome>, o: RowOutcome)
    ensures CreatedCount(os + [o]) == CreatedCount(os) + (if o.Created? then 1 else 0)
    ensures Messages(os + [o]) == Messages(os) + (if o.Skipped? then [o.message] else [])
    ensures CreatedRecords(os + [o]) == CreatedRecords(os) + (if o.Created? then [o.employee] else [])
  {
    assert (os + [o])[..|os|] == os;
  }

  // ------------------------------------------------------------ the row loop

  /** The store after the loop is the store before it followed by the created employees, in row order. */
  lemma {:induction false} StoreGrowsByCreated(m: map<string, nat>, rows: seq<Row>,
                                               store: seq<Employee>, refuse: Refusal)
    ensures ImportRows(m, rows, store, refuse).store
         == store + CreatedRecords(ImportRows(m, rows, store, refuse).outcomes)
    decreases |rows|
  {
    if rows != [] {
      var prev := ImportRows(m, rows[..|rows| - 1], store, refuse);
      var o := ProcessRow(m, rows[|rows| - 1], |rows| + 1, prev.store, refuse);
      StoreGrowsByCreated(m, rows[..|rows| - 1], store, refuse);
      CountsOfPrefix(prev.outcomes, o);
    }
  }

  /** Running the loop over a prefix of the rows gives a prefix of the outcomes. */
  lemma {:induction false} PrefixRun(m: map<string, nat>, rows: seq<Row>, store: seq<Employee>,
                                     refuse: Refusal, j: nat)
    requires j <= |rows|
    ensures ImportRows(m, rows[..j], store, refuse).outcomes
         == ImportRows(m, rows, store, refuse).outcomes[..j]
    decreases |rows|
  {
    if j < |rows| {
      var init := rows[..|rows| - 1];
      assert init[..j] == rows[..j];
      PrefixRun(m, init, store, refuse, j);
      assert ImportRows(m, rows, store, refuse).outcomes[..|rows| - 1]
          == ImportRows(m, init, store, refuse).outcomes;
    } else {
      assert rows[..j] == rows;
    }
  }

  /**
   * Data rows are handled in sheet order: the row at position `k` of the data
   * rows is sheet row `k + 2`, and it is checked against the store as the
   * earlier rows left it, including the employees they created.
   */
  lemma {:induction false} OutcomeAt(m: map<string, nat>, rows: seq<Row>, store: seq<Employee>,
                                     refuse: Refusal, k: nat)
    requires k < |rows|
    ensures ImportRows(m, rows, store, refuse).outcomes[k]
         == ProcessRow(m, rows[k], k + 2, ImportRows(m, rows[..k], store, refuse).store, refuse)
  {
    PrefixRun(m, rows, store, refuse, k + 1);
    var pre := rows[..k + 1];
    assert pre[..k] == rows[..k];
    assert pre[k] == rows[k];
    assert ImportRows(m, pre, store, refuse).outcomes[k]
        == ProcessRow(m, rows[k], k + 2, ImportRows(m, rows[..k], store, refuse).store, refuse);
  }

  /** Every error line names its own sheet row: `"Row n: "` with `n` = position + 2. */
  lemma RowNumbered(m: map<string, nat>, rows: seq<Row>, store: seq<Employee>,
                    refuse: Refusal, k: nat)
    requires k < |rows|
    requires ImportRows(m, rows, store, refuse).outcomes[k].Skipped?
    ensures StartsWith(ImportRows(m, rows, store, refuse).outcomes[k].message, RowLabel(k + 2))
  {
    OutcomeAt(m, rows, store, refuse, k);
  }

  /** A row whose mapped columns run past its end is skipped with a mapping error. */
  lemma ShortRowIsMappingError(m: map<string, nat>, rows: seq<Row>, store: seq<Employee>,
                               refuse: Refusal, k: nat, field: string)
    requires k < |rows|
    requires field in {"name", "work_email", "identification_id", "work_phone"}
    requires field in m && m[field] >= |rows[k]|
    ensures ImportRows(m, rows, store, refuse).outcomes[k] == Skipped(MappingError(k + 2))
  {
    OutcomeAt(m, rows, store, refuse, k);
  }

  /** A row whose name is falsy is skipped with `"Row n: missing name"` and creates nothing. */
  lemma MissingNameSkipped(m: map<string, nat>, rows: seq<Row>, store: seq<Employee>,
                           refuse: Refusal, k: nat, f: Fields)
    requires k < |rows|
    requires Extract(m, rows[k]) == Some(f) && !Truthy(f.name)
    ensures ImportRows(m, rows, store, refuse).outcomes[k] == Skipped(MissingName(k + 2))
  {
    OutcomeAt(m, rows, store, refuse, k);
  }

  /**
   * A row that passes the mapping, name and duplicate checks but whose
   * `create` the table refuses is skipped with `"Row n: create error - …"`
   * carrying the table's message; one the table accepts is created.
   */
  lemma CreateRefusedSkipped(m: map<string, nat>, rows: seq<Row>, store: seq<Employee>,
                             refuse: Refusal, k: nat, f: Fields)
    requires k < |rows|
    requires Extract(m, rows[k]) == Some(f) && Truthy(f.name)
    requires Domain(f) == [] || !AnyMatch(ImportRows(m, rows[..k], store, refuse).store, Domain(f))
    ensures var seen := ImportRows(m, rows[..k], store, refuse).store;
            var o := ImportRows(m, rows, store, refuse).outcomes[k];
            && (refuse(seen, Vals(f)).Some? ==> o == Skipped(CreateError(k + 2, refuse(seen, Vals(f)).value)))
            && (refuse(seen, Vals(f)).None? ==> o == Created(Vals(f)))
  {
    OutcomeAt(m, rows, store, refuse, k);
  }

  /**
   * A created employee comes from a row whose four fields were read, whose
   * name is truthy and whose domain matched nobody; what is stored is the
   * name, the email and phone or `False`, and the stringified id or `False`.
   */
  lemma CreatedFromRow(m: map<string, nat>, rows: seq<Row>, store: seq<Employee>,
                       refuse: Refusal, k: nat)
    requires k < |rows|
    requires ImportRows(m, rows, store, refuse).outcomes[k].Created?
    ensures Extract(m, rows[k]).Some?
    ensures var f := Extract(m, rows[k]).value;
            var e := ImportRows(m, rows, store, refuse).outcomes[k].employee;
            && Truthy(f.name) && e.name == f.name && e.active
            && (Domain(f) == [] || !AnyMatch(ImportRows(m, rows[..k], store, refuse).store, Domain(f)))
            && e.workEmail == (if Truthy(f.workEmail) then f.workEmail else Bool(false))
            && e.workPhone == (if Truthy(f.workPhone) then f.workPhone else Bool(false))
            && e.identificationId == (if Truthy(f.ident) then Str(PyStr(f.ident)) else Bool(false))
  {
    OutcomeAt(m, rows, store, refuse, k);
  }

  /** The store seen by a later row extends the store seen by an earlier one. */
  lemma StorePrefix(m: map<string, nat>, rows: seq<Row>, store: seq<Employee>,
                    refuse: Refusal, i: nat, j: nat)
    requires i <= j <= |rows|
    ensures |ImportRows(m, rows[..i], store, refuse).store| <= |ImportRows(m, rows[..j], store, refuse).store|
    ensures ImportRows(m, rows[..j], store, refuse).store[..|ImportRows(m, rows[..i], store, refuse).store|]
         == ImportRows(m, rows[..i], store, refuse).store
  {
    var rj := rows[..j];
    var ri := ImportRows(m, rows[..i], store, refuse);
    var oj := ImportRows(m, rj, store, refuse).outcomes;
    assert ri.outcomes == oj[..i] by {
      assert rj[..i] == rows[..i];
      PrefixRun(m, rj, store, refuse, i);
    }
    assert ri.store == store + CreatedRecords(oj[..i]) by {
      StoreGrowsByCreated(m, rows[..i], store, refuse);
    }
    assert ImportRows(m, rj, store, refuse).store == store + CreatedRecords(oj) by {
      StoreGrowsByCreated(m, rj, store, refuse);
    }
    RecordsOfPrefix(oj, i);
  }

  lemma {:induction false} RecordsOfPrefix(os: seq<RowOutcome>, i: nat)
    requires i <= |os|
    ensures |CreatedRecords(os[..i])| <= |CreatedRecords(os)|
    ensures CreatedRecords(os)[..|CreatedRecords(os[..i])|] == CreatedRecords(os[..i])
  {
    if i < |os| {
      var init := os[..|os| - 1];
      assert init[..i] == os[..i];
      RecordsOfPrefix(init, i);
    } else {
      assert os[..i] == os;
    }
  }

  /**
   * Employees created earlier in the same run count as existing: when row
   * `i` created `e` and a later row `j` has a name and a non-empty domain
   * that `e` satisfies, row `j` is a duplicate.
   */
  lemma EarlierCreationIsDuplicate(m: map<string, nat>, rows: seq<Row>, store: seq<Employee>,
                                   refuse: Refusal, i: nat, j: nat, f: Fields)
    requires i < j < |rows|
    requires ImportRows(m, rows, store, refuse).outcomes[i].Created?
    requires Extract(m, rows[j]) == Some(f) && Truthy(f.name) && Domain(f) != []
    requires MatchesAll(ImportRows(m, rows, store, refuse).outcomes[i].employee, Domain(f))
    ensures ImportRows(m, rows, store, refuse).outcomes[j] == Skipped(Duplicate(j + 2))
  {
    var e := ImportRows(m, rows, store, refuse).outcomes[i].employee;
    OutcomeAt(m, rows, store, refuse, i);
    OutcomeAt(m, rows, store, refuse, j);
    var si := ImportRows(m, rows[..i], store, refuse).store;
    var pre := rows[..i + 1];
    assert pre[..i] == rows[..i];
    assert pre[i] == rows[i];
    var si1 := ImportRows(m, pre, store, refuse).store;
    assert si1 == si + [e];
    StorePrefix(m, rows, store, refuse, i + 1, j);
    var sj := ImportRows(m, rows[..j], store, refuse).store;
    assert sj[|si|] == si1[|si|] == e;
    assert AnyMatch(sj, Domain(f));
  }

  // ------------------------------------------------------------ running again

  /** Whatever was already present stays visible to the loop. */
  lemma PresentStaysPresent(m: map<string, nat>, rows: seq<Row>, store: seq<Employee>,
                            refuse: Refusal, k: nat, domain: seq<Term>)
    requires k <= |rows| && AnyMatch(store, domain)
    ensures AnyMatch(ImportRows(m, rows[..k], store, refuse).store, domain)
  {
    StoreGrowsByCreated(m, rows[..k], store, refuse);
    var w :| 0 <= w < |store| && MatchesAll(store[w], domain);
    assert ImportRows(m, rows[..k], store, refuse).store[w] == store[w];
  }

  /** The employee created for a row satisfies that row's own domain. */
  lemma ValsMatchOwnDomain(f: Fields)
    ensures MatchesAll(Vals(f), Domain(f))
  {
  }

  /**
   * Running the same rows again after a run that created every row finds
   * every row a duplicate when each row has an id or an email: nothing is
   * created the second time and every row becomes an error line.
   */
  lemma RerunCreatesNothing(m: map<string, nat>, rows: seq<Row>, store: seq<Employee>,
                            refuse: Refusal)
    requires forall k :: 0 <= k < |rows| ==> ImportRows(m, rows, store, refuse).outcomes[k].Created?
    requires forall k :: 0 <= k < |rows| ==> Extract(m, rows[k]).Some? && Domain(Extract(m, rows[k]).value) != []
    ensures var again := ImportRows(m, rows, ImportRows(m, rows, store, refuse).store, refuse);
            forall k :: 0 <= k < |rows| ==> again.outcomes[k] == Skipped(Duplicate(k + 2))
  {
    var first := ImportRows(m, rows, store, refuse);
    StoreGrowsByCreated(m, rows, store, refuse);
    forall k | 0 <= k < |rows|
      ensures ImportRows(m, rows, first.store, refuse).outcomes[k] == Skipped(Duplicate(k + 2))
    {
      var f := Extract(m, rows[k]).value;
      CreatedFromRow(m, rows, store, refuse, k);
      var e := first.outcomes[k].employee;
      assert e == Vals(f) by { OutcomeAt(m, rows, store, refuse, k); }
      ValsMatchOwnDomain(f);
      CreatedIsStored(m, rows, store, refuse, k);
      assert AnyMatch(first.store, Domain(f));
      PresentStaysPresent(m, rows, first.store, refuse, k, Domain(f));
      OutcomeAt(m, rows, first.store, refuse, k);
    }
  }

  /** An employee created by any row of the run is in the store the run leaves. */
  lemma CreatedIsStored(m: map<string, nat>, rows: seq<Row>, store: seq<Employee>,
                        refuse: Refusal, k: nat)
    requires k < |rows|
    requires ImportRows(m, rows, store, refuse).outcomes[k].Created?
    ensures ImportRows(m, rows, store, refuse).outcomes[k].employee in ImportRows(m, rows, store, refuse).store
  {
    var e := ImportRows(m, rows, store, refuse).outcomes[k].employee;
    OutcomeAt(m, rows, store, refuse, k);
    var pre := rows[..k + 1];
    assert pre[..k] == rows[..k];
    assert pre[k] == rows[k];
    assert e in ImportRows(m, pre, store, refuse).store;
    StorePrefix(m, rows, store, refuse, k + 1, |rows|);
    assert rows[..|rows|] == rows;
    var sp := ImportRows(m, pre, store, refuse).store;
    var w := |sp| - 1;
    assert ImportRows(m, rows, store, refuse).store[w] == sp[w];
  }

  // ------------------------------------------------------------ the job

  /** A file that cannot be decoded or opened fails the job with `"Failed to read file: ..."` and touches nothing. */
  lemma UnreadableFails(reason: string, store: seq<Employee>, refuse: Refusal)
    ensures var o := RunJob(Unreadable(reason), store, refuse);
            o.Finished? && o.state == Failed && o.total == 0 && o.processed == 0 && o.store == store
            && o.errors.Some? && StartsWith(o.errors.value, "Failed to read file: ")
  {
  }

  /** The final fields of a finished job satisfy the bookkeeping the job promises. */
  lemma {:induction false} JobAccounting(file: Workbook, store: seq<Employee>, refuse: Refusal)
    requires RunJob(file, store, refuse).Finished?
    ensures var o := RunJob(file, store, refuse);
            && o.processed <= o.total
            && (o.state == Done <==> o.errors.None?)
            && (o.state == Done || o.state == Failed)
            && (o.state == Done ==> o.total == o.processed)
            && |o.store| == |store| + o.processed && o.store == store + o.store[|store|..]
  {
    if file.Sheet? && file.rows != [] {
      var m := HeaderMap(file.rows[0]).value;
      var r := ImportRows(m, file.rows[1..], store, refuse);
      CountsAddUp(r.outcomes);
      StoreGrowsByCreated(m, file.rows[1..], store, refuse);
    }
  }

  /**
   * For a sheet with a header row: `total == processed + len(errors)`, the
   * state is `done` exactly when no row failed, and when no message holds a
   * newline the `errors` text has one line per failed row.
   */
  lemma RowJobCounters(rows: seq<Row>, store: seq<Employee>, refuse: Refusal, m: map<string, nat>)
    requires rows != [] && HeaderMap(rows[0]) == Some(m)
    ensures var o := RunJob(Sheet(rows), store, refuse);
            var msgs := Messages(ImportRows(m, rows[1..], store, refuse).outcomes);
            && o.Finished?
            && o.total == |rows| - 1 && o.total == o.processed + |msgs|
            && (o.state == Done <==> msgs == [])
            && (((forall i :: 0 <= i < |msgs| ==> '\n' !in msgs[i]) && o.errors.Some?)
                ==> Split(o.errors.value, '\n') == msgs)
  {
    var r := ImportRows(m, rows[1..], store, refuse);
    CountsAddUp(r.outcomes);
    var msgs := Messages(r.outcomes);
    if msgs != [] && forall i :: 0 <= i < |msgs| ==> '\n' !in msgs[i] {
      SplitJoin(msgs, '\n');
    }
  }

  /** A sheet with no rows at all fails with `"Empty file"`. */
  lemma NoRowsFails(store: seq<Employee>, refuse: Refusal)
    ensures RunJob(Sheet([]), store, refuse) == Finished(Failed, 0, 0, Some("Empty file"), store)
  {
  }

  /** A sheet with a header row and nothing after it ends `done` with zero counters. */
  lemma HeaderOnlyIsDone(header: Row, store: seq<Employee>, refuse: Refusal)
    requires forall i :: 0 <= i < |header| ==> Keyed(header[i])
    ensures RunJob(Sheet([header]), store, refuse) == Finished(Done, 0, 0, None, store)
  {
    HeaderMapDefined(header);
    assert [header][1..] == [];
  }

  /** A truthy non-text header cell makes the job raise before any row is read. */
  lemma BadHeaderCrashes(rows: seq<Row>, store: seq<Employee>, refuse: Refusal, i: nat)
    requires rows != [] && i < |rows[0]| && Truthy(rows[0][i]) && !rows[0][i].Str?
    ensures RunJob(Sheet(rows), store, refuse) == Crashed
  {
    HeaderMapDefined(rows[0]);
  }

  /** A header text with no surrounding whitespace and no capitals is its own key. */
  lemma PlainHeaderKey(s: string)
    requires s != [] && !IsSpace(s[0]) && !IsSpace(s[|s| - 1])
    requires forall i :: 0 <= i < |s| ==> !('A' <= s[i] <= 'Z')
    ensures HeaderKey(Str(s)) == Some(s)
  {
    TrimUnpadded(s);
    assert Lower(s) == s;
  }

  /** The row loop over one more data row. */
  lemma ImportRowsSnoc(m: map<string, nat>, rows: seq<Row>, row: Row, store: seq<Employee>, refuse: Refusal)
    ensures var prev := ImportRows(m, rows, store, refuse);
            var o := ProcessRow(m, row, |rows| + 2, prev.store, refuse);
            ImportRows(m, rows + [row], store, refuse) == Run(prev.outcomes + [o], After(prev.store, o))
  {
    assert (rows + [row])[..|rows|] == rows;
  }

  /**
   * What the imperative row loop keeps after its first `k` data rows: the
   * outcomes so far, the store after them, and the two counters.
   */
  ghost predicate LoopProgress(m: map<string, nat>, rows: seq<Row>, k: nat, store: seq<Employee>,
                               refuse: Refusal, outs: seq<RowOutcome>, current: seq<Employee>,
                               created: nat, errs: seq<string>)
  {
    && k <= |rows|
    && ImportRows(m, rows[..k], store, refuse) == Run(outs, current)
    && created == CreatedCount(outs) && errs == Messages(outs)
  }

  lemma LoopStart(m: map<string, nat>, rows: seq<Row>, store: seq<Employee>, refuse: Refusal)
    ensures LoopProgress(m, rows, 0, store, refuse, [], store, 0, [])
  {
    assert rows[..0] == [];
  }

  lemma LoopEnd(m: map<string, nat>, rows: seq<Row>, store: seq<Employee>, refuse: Refusal,
                outs: seq<RowOutcome>, current: seq<Employee>, created: nat, errs: seq<string>)
    requires LoopProgress(m, rows, |rows|, store, refuse, outs, current, created, errs)
    ensures var r := ImportRows(m, rows, store, refuse);
            current == r.store && created == CreatedCount(r.outcomes) && errs == Messages(r.outcomes)
  {
    assert rows[..|rows|] == rows;
  }

  /** One more row of the loop, in the terms the imperative loop keeps. */
  lemma RowStep(m: map<string, nat>, rows: seq<Row>, k: nat, store: seq<Employee>, refuse: Refusal,
                outs: seq<RowOutcome>, current: seq<Employee>, created: nat, errs: seq<string>,
                error: Option<string>)
    requires k < |rows|
    requires LoopProgress(m, rows, k, store, refuse, outs, current, created, errs)
    requires var o := ProcessRow(m, rows[k], k + 2, current, refuse);
             && (error.None? <==> o.Created?) && (o.Skipped? ==> error == Some(o.message))
    ensures var o := ProcessRow(m, rows[k], k + 2, current, refuse);
            LoopProgress(m, rows, k + 1, store, refuse, outs + [o], After(current, o),
                         if error.None? then created + 1 else created,
                         if error.None? then errs else errs + [error.value])
  {
    var o := ProcessRow(m, rows[k], k + 2, current, refuse);
    CountsOfPrefix(outs, o);
    ImportRowsSnoc(m, rows[..k], rows[k], store, refuse);
    assert rows[..k] + [rows[k]] == rows[..k + 1];
  }

  // ------------------------------------------------------- the duplicate test

  /**
   * A row that passes the mapping and name checks is reported as a duplicate
   * exactly when it has an id or an email and some active employee matches
   * every term of its domain.
   */
  lemma DuplicateIffMatch(m: map<string, nat>, row: Row, n: nat, store: seq<Employee>, refuse: Refusal)
    requires Extract(m, row).Some? && Truthy(Extract(m, row).value.name)
    ensures var d := Domain(Extract(m, row).value);
            ProcessRow(m, row, n, store, refuse) == Skipped(Duplicate(n)) <==> (d != [] && AnyMatch(store, d))
  {
    var f := Extract(m, row).value;
    var d := Domain(f);
    if !(d != [] && AnyMatch(store, d)) {
      match refuse(store, Vals(f))
      case None =>
      case Some(e) =>
        var at := |RowLabel(n)|;
        assert CreateError(n, e)[at] == 'c';
        assert Duplicate(n)[at] == 'd';
    }
  }

  /**
   * With both an id and an email present, the search needs ONE employee that
   * has both: an active record with the same id but another email (or the
   * same email but another id) does not make the row a duplicate.
   */
  lemma BothTermsMustMatch(f: Fields, store: seq<Employee>)
    requires Truthy(f.ident) && Truthy(f.workEmail)
    ensures AnyMatch(store, Domain(f)) <==>
            exists i :: 0 <= i < |store| && store[i].active
                        && store[i].identificationId == Str(PyStr(f.ident))
                        && store[i].workEmail == f.workEmail
  {
    var d := Domain(f);
    assert d == [IdentificationIs(PyStr(f.ident)), WorkEmailIs(f.workEmail)];
    forall i | 0 <= i < |store|
      ensures MatchesAll(store[i], d) <==>
              (store[i].active && store[i].identificationId == Str(PyStr(f.ident))
               && store[i].workEmail == f.workEmail)
    {
      if store[i].active && store[i].identificationId == Str(PyStr(f.ident)) && store[i].workEmail == f.workEmail {
        forall k | 0 <= k < |d| ensures Satisfies(store[i], d[k]) {
          if k == 1 { assert d[k] == WorkEmailIs(f.workEmail); }
        }
      }
      if MatchesAll(store[i], d) {
        assert Satisfies(store[i], d[0]) && Satisfies(store[i], d[1]);
      }
    }
  }
}

/**
 * What one run of `employee.import.job.process_file` computes for one job,
 * as pure functions: the header map, the outcome of each data row against
 * the employee store as it stands when the row is reached, and the job's
 * final fields.  The imperative run in module ImportJobs is proved against
 * these functions.
 */
module EmployeeImport {
  import opened Wrappers
  import opened Text

  /** A spreadsheet cell as the workbook reader yields it (`values_only=True`). */
  datatype Cell = Empty | Str(s: string) | Int(i: int) | Bool(b: bool)

  type Row = seq<Cell>

  /** Python truthiness of a cell (`if name`, `if ident`, `x or False`). */
  predicate Truthy(c: Cell) {
    match c
    case Empty => false
    case Str(s) => s != ""
    case Int(i) => i != 0
    case Bool(b) => b
  }

  /** Python's `str(c)`. */
  function PyStr(c: Cell): string {
    match c
    case Empty => "None"
    case Str(s) => s
    case Int(i) => IntToString(i)
    case Bool(b) => if b then "True" else "False"
  }

  /** `c or False`: the cell itself when truthy, otherwise Odoo's `False`. */
  function OrFalse(c: Cell): Cell {
    if Truthy(c) then c else Bool(false)
  }

  /** What decoding the uploaded file and opening its active sheet yields. */
  datatype Workbook = Unreadable(reason: string) | Sheet(rows: seq<Row>)

  datatype State = Draft | Pending | Running | Done | Failed

  /** The selection value stored in `state`, as it appears in the mail subject. */
  function StateName(s: State): string {
    match s
    case Draft => "draft"
    case Pending => "pending"
    case Running => "running"
    case Done => "done"
    case Failed => "failed"
  }

  /** An `hr.employee` record as far as this job writes and searches it. */
  datatype Employee = Employee(name: Cell, workEmail: Cell, workPhone: Cell,
                               identificationId: Cell, active: bool)

  /** One term of the duplicate-search domain. */
  datatype Term = IdentificationIs(id: string) | WorkEmailIs(email: Cell)

  predicate Satisfies(e: Employee, t: Term) {
    match t
    case IdentificationIs(id) => e.identificationId == Str(id)
    case WorkEmailIs(email) => e.workEmail == email
  }

  /**
   * An Odoo `search(domain)` joins its terms with AND and, on `hr.employee`,
   * only sees active records.
   */
  predicate MatchesAll(e: Employee, domain: seq<Term>) {
    e.active && forall k :: 0 <= k < |domain| ==> Satisfies(e, domain[k])
  }

  predicate AnyMatch(store: seq<Employee>, domain: seq<Term>) {
    exists i :: 0 <= i < |store| && MatchesAll(store[i], domain)
  }

  /**
   * The store's answer to `create(vals)` given its current records: `None`
   * when it accepts them, otherwise the text of the exception it raises.
   */
  type Refusal = (seq<Employee>, Employee) -> Option<string>

  // ---------------------------------------------------------------- header

  /**
   * `(h or '').strip().lower()`; `None` when the cell is truthy but not text,
   * where `.strip` raises `AttributeError`.
   */
  function HeaderKey(h: Cell): (r: Option<string>)
    ensures r.Some? <==> (!Truthy(h) || h.Str?)
    ensures !Truthy(h) ==> r == Some("")
    ensures r.Some? ==> r.value == [] || (!IsSpace(r.value[0]) && !IsSpace(r.value[|r.value| - 1]))
    ensures h.Str? ==> |r.value| == |Trim(h.s)|
    ensures h.Str? ==> forall i :: 0 <= i < |r.value| ==> r.value[i] == LowerChar(Trim(h.s)[i])
  {
    if !Truthy(h) then Some("")
    else if h.Str? then
      var t := Trim(h.s);
      LowerKeepsEnds(t);
      Some(Lower(t))
    else None
  }

  /** Lower-casing neither adds nor removes whitespace at the ends. */
  lemma LowerKeepsEnds(t: string)
    requires t == [] || (!IsSpace(t[0]) && !IsSpace(t[|t| - 1]))
    ensures var k := Lower(t); k == [] || (!IsSpace(k[0]) && !IsSpace(k[|k| - 1]))
  {
  }

  /**
   * `{ key(h): i for i, h in enumerate(headers) }`; `None` when some header
   * cell makes the comprehension raise.  The comprehension inserts column by
   * column, so a later duplicate header overwrites an earlier one.
   */
  function HeaderMap(hs: Row): (r: Option<map<string, nat>>)
    ensures r.Some? ==> forall k :: k in r.value ==> r.value[k] < |hs|
    decreases |hs|
  {
    if hs == [] then Some(map[])
    else
      match HeaderMap(hs[..|hs| - 1])
      case None => None
      case Some(m) =>
        match HeaderKey(hs[|hs| - 1])
        case None => None
        case Some(key) => Some(m[key := |hs| - 1])
  }

  /** A header cell the comprehension accepts: falsy, or text. */
  predicate Keyed(h: Cell) { !Truthy(h) || h.Str? }

  /** Every cell of the header row is one the comprehension accepts. */
  predicate AllKeyed(hs: Row) {
    forall i :: 0 <= i < |hs| ==> Keyed(hs[i])
  }

  /** The map exists exactly when no header cell makes the comprehension raise. */
  lemma {:induction false} HeaderMapDefined(hs: Row)
    ensures HeaderMap(hs).Some? <==> AllKeyed(hs)
    decreases |hs|
  {
    if hs != [] {
      HeaderMapDefined(hs[..|hs| - 1]);
      AllKeyedSnoc(hs);
      assert HeaderKey(hs[|hs| - 1]).Some? <==> Keyed(hs[|hs| - 1]);
    }
  }

  lemma AllKeyedSnoc(hs: Row)
    requires hs != []
    ensures AllKeyed(hs) <==> AllKeyed(hs[..|hs| - 1]) && Keyed(hs[|hs| - 1])
  {
    var init := hs[..|hs| - 1];
    assert forall i :: 0 <= i < |init| ==> init[i] == hs[i];
  }

  /** Every header's trimmed, lower-cased text is a key of the map. */
  lemma {:induction false} HeaderMapHasEveryKey(hs: Row, m: map<string, nat>)
    requires HeaderMap(hs) == Some(m)
    ensures forall i :: 0 <= i < |hs| ==> HeaderKey(hs[i]).Some? && HeaderKey(hs[i]).value in m
    decreases |hs|
  {
    if hs != [] {
      var init := hs[..|hs| - 1];
      var m0 := HeaderMap(init).value;
      var key := HeaderKey(hs[|hs| - 1]).value;
      assert m == m0[key := |hs| - 1];
      HeaderMapHasEveryKey(init, m0);
      forall i | 0 <= i < |hs| - 1 ensures HeaderKey(hs[i]).Some? && HeaderKey(hs[i]).value in m {
        assert hs[i] == init[i];
      }
    }
  }

  /**
   * Each key maps to a zero-based column whose header yields it, and no
   * later column yields the same key: the last duplicate header wins.
   */
  lemma {:induction false} HeaderMapLastColumn(hs: Row, m: map<string, nat>, k: string)
    requires HeaderMap(hs) == Some(m) && k in m
    ensures m[k] < |hs| && HeaderKey(hs[m[k]]) == Some(k)
    ensures forall j :: m[k] < j < |hs| ==> HeaderKey(hs[j]) != Some(k)
    decreases |hs|
  {
    var last := |hs| - 1;
    var init := hs[..last];
    var m0 := HeaderMap(init).value;
    var key := HeaderKey(hs[last]).value;
    assert m == m0[key := last];
    if k != key {
      HeaderMapLastColumn(init, m0, k);
      assert hs[m[k]] == init[m0[k]];
      assert m[k] == m0[k];
      forall j | m[k] < j < |hs| ensures HeaderKey(hs[j]) != Some(k) {
        if j == last {
          assert HeaderKey(hs[j]) == Some(key);
        } else {
          assert hs[j] == init[j];
        }
      }
    }
  }

  // ---------------------------------------------------------------- rows

  /**
   * `row[header_map.get(f)] if header_map.get(f) is not None else None`:
   * `Empty` for a column the header does not name (column 0 included, since
   * the test is `is not None`), `None` where the index raises `IndexError`.
   */
  function Lookup(m: map<string, nat>, field: string, row: Row): (r: Option<Cell>)
    ensures field !in m ==> r == Some(Empty)
    ensures field in m ==> (r.Some? <==> m[field] < |row|)
    ensures field in m && m[field] < |row| ==> r == Some(row[m[field]])
  {
    if field !in m then Some(Empty)
    else if m[field] < |row| then Some(row[m[field]])
    else None
  }

  datatype Fields = Fields(name: Cell, workEmail: Cell, ident: Cell, workPhone: Cell)

  /** The four extractions of one row; `None` if any of them raises. */
  function Extract(m: map<string, nat>, row: Row): Option<Fields> {
    match (Lookup(m, "name", row), Lookup(m, "work_email", row),
           Lookup(m, "identification_id", row), Lookup(m, "work_phone", row))
    case (Some(n), Some(e), Some(i), Some(p)) => Some(Fields(n, e, i, p))
    case _ => None
  }

  /** The duplicate-search domain: the id term (stringified) and the email term, each only when truthy. */
  function Domain(f: Fields): (d: seq<Term>)
    ensures |d| <= 2
    ensures d == [] <==> !Truthy(f.ident) && !Truthy(f.workEmail)
  {
    (if Truthy(f.ident) then [IdentificationIs(PyStr(f.ident))] else [])
    + (if Truthy(f.workEmail) then [WorkEmailIs(f.workEmail)] else [])
  }

  /** The `vals` passed to `create`. */
  function Vals(f: Fields): Employee {
    Employee(f.name, OrFalse(f.workEmail), OrFalse(f.workPhone),
             if Truthy(f.ident) then Str(PyStr(f.ident)) else Bool(false), true)
  }

  function RowLabel(n: nat): string { "Row " + Decimal(n) + ": " }

  /** Python's text for the `IndexError` raised by indexing past a tuple's end. */
  const IndexErrorText := "tuple index out of range"

  function MappingError(n: nat): string { RowLabel(n) + "mapping error - " + IndexErrorText }
  function MissingName(n: nat): string { RowLabel(n) + "missing name" }
  function Duplicate(n: nat): string { RowLabel(n) + "duplicate (email or id)" }
  function CreateError(n: nat, e: string): string { RowLabel(n) + "create error - " + e }

  datatype RowOutcome = Created(employee: Employee) | Skipped(message: string)

  /** What the loop body does with data row number `n`, given the store as it stands. */
  function ProcessRow(m: map<string, nat>, row: Row, n: nat, store: seq<Employee>,
                      refuse: Refusal): (o: RowOutcome)
    ensures o.Created? ==> Truthy(o.employee.name) && o.employee.active && refuse(store, o.employee).None?
  {
    match Extract(m, row)
    case None => Skipped(MappingError(n))
    case Some(f) =>
      if !Truthy(f.name) then Skipped(MissingName(n))
      else if Domain(f) != [] && AnyMatch(store, Domain(f)) then Skipped(Duplicate(n))
      else match refuse(store, Vals(f))
        case Some(e) => Skipped(CreateError(n, e))
        case None => Created(Vals(f))
  }

  /** The store after one row. */
  function After(store: seq<Employee>, o: RowOutcome): seq<Employee> {
    if o.Created? then store + [o.employee] else store
  }

  datatype Run = Run(outcomes: seq<RowOutcome>, store: seq<Employee>)

  /**
   * The row loop over the data rows `rows` (sheet rows 2, 3, ...), starting
   * from `store`; each row sees the employees created by the rows before it.
   */
  function ImportRows(m: map<string, nat>, rows: seq<Row>, store: seq<Employee>,
                      refuse: Refusal): (r: Run)
    ensures |r.outcomes| == |rows|
    decreases |rows|
  {
    if rows == [] then Run([], store)
    else
      var prev := ImportRows(m, rows[..|rows| - 1], store, refuse);
      var o := ProcessRow(m, rows[|rows| - 1], |rows| + 1, prev.store, refuse);
      Run(prev.outcomes + [o], After(prev.store, o))
  }

  /** `created`: the number of rows that produced an employee. */
  function CreatedCount(os: seq<RowOutcome>): nat {
    if os == [] then 0
    else CreatedCount(os[..|os| - 1]) + (if os[|os| - 1].Created? then 1 else 0)
  }

  /** `errors`: the skipped rows' messages, in row order. */
  function Messages(os: seq<RowOutcome>): seq<string> {
    if os == [] then []
    else Messages(os[..|os| - 1]) + (if os[|os| - 1].Skipped? then [os[|os| - 1].message] else [])
  }

  /** The employees created, in row order. */
  function CreatedRecords(os: seq<RowOutcome>): seq<Employee> {
    if os == [] then []
    else CreatedRecords(os[..|os| - 1]) + (if os[|os| - 1].Created? then [os[|os| - 1].employee] else [])
  }

  // ---------------------------------------------------------------- job

  /**
   * The job's fields after `process_file`, or `Crashed` when the header row
   * makes the method raise (the job is then left as the reset put it).
   */
  datatype JobOutcome =
    | Finished(state: State, total: nat, processed: nat, errors: Option<string>, store: seq<Employee>)
    | Crashed

  const EmptyFileText := "Empty file"
  const ReadFailurePrefix := "Failed to read file: "

  /** `"\n".join(errors) if errors else False`. */
  function ErrorsField(msgs: seq<string>): Option<string> {
    if msgs == [] then None else Some(Join(msgs, '\n'))
  }

  /**
   * One job of `process_file` after its reset: the read failure, the empty
   * sheet, the header crash, or the row loop and the counters it writes.
   */
  function RunJob(file: Workbook, store: seq<Employee>, refuse: Refusal): (o: JobOutcome)
    ensures o.Crashed? <==> file.Sheet? && file.rows != [] && HeaderMap(file.rows[0]).None?
    ensures o.Finished? ==> o.processed <= o.total && (o.state == Done <==> o.errors.None?)
  {
    match file
    case Unreadable(reason) => Finished(Failed, 0, 0, Some(ReadFailurePrefix + reason), store)
    case Sheet(rows) =>
      if rows == [] then Finished(Failed, 0, 0, Some(EmptyFileText), store)
      else match HeaderMap(rows[0])
        case None => Crashed
        case Some(m) =>
          var r := ImportRows(m, rows[1..], store, refuse);
          var created := CreatedCount(r.outcomes);
          var msgs := Messages(r.outcomes);
          Finished(if msgs == [] then Done else Failed, created + |msgs|, created,
                   ErrorsField(msgs), r.store)
  }
}

/**
 * The `employee.import.job` record and its methods as step-by-step updates
 * of its fields, of the employee table and of the mail outbox, each proved
 * against the functions of EmployeeImport.
 */
module ImportJobs {
  import opened Wrappers
  import opened Text
  import opened EmployeeImport
  import ImportProperties

  /** The `hr.employee` table, as the job searches and extends it. */
  class EmployeeStore {
    var employees: seq<Employee>
    /** How the table answers a `create`, given what it holds. */
    const refuse: Refusal

    constructor (employees: seq<Employee>, refuse: Refusal)
      ensures this.employees == employees && this.refuse == refuse
    {
      this.employees := employees;
      this.refuse := refuse;
    }

    /** `search(domain, limit=1)`, taken as a yes/no answer. */
    predicate Search(domain: seq<Term>)
      reads this
    {
      AnyMatch(employees, domain)
    }

    /** `create(vals)`: appends the record, or raises with the table's message and changes nothing. */
    method Create(vals: Employee) returns (error: Option<string>)
      modifies this
      ensures error == refuse(old(employees), vals)
      ensures employees == if error.None? then old(employees) + [vals] else old(employees)
    {
      error := refuse(employees, vals);
      if error.None? {
        employees := employees + [vals];
      }
    }
  }

  /** The parts of the result mail that depend on the job. */
  datatype Mail = Mail(emailTo: string, subject: string, jobName: string,
                       processed: int, total: int, errorText: string)

  /** Mails created with `mail.mail` and sent, in order. */
  class Outbox {
    var sent: seq<Mail>

    constructor ()
      ensures sent == []
    {
      sent := [];
    }
  }

  /**
   * The `_enqueue_process` calls `action_start` makes, in order; what the
   * call then runs is not part of this record.
   */
  class Dispatcher {
    var queued: seq<ImportJob>

    constructor ()
      ensures queued == []
    {
      queued := [];
    }
  }

  class ImportJob {
    const name: string
    /** `user_id.email`. */
    const userEmail: Option<string>
    /** What decoding `file` and opening its active sheet yields. */
    const file: Workbook
    var state: State
    var total: int
    var processed: int
    /** The `errors` text field; `None` is Odoo's `False`. */
    var errors: Option<string>

    /** A new upload: `draft`, counters zero, no errors. */
    constructor (name: string, userEmail: Option<string>, file: Workbook)
      ensures this.name == name && this.userEmail == userEmail && this.file == file
      ensures state == Draft && total == 0 && processed == 0 && errors == None
    {
      this.name := name;
      this.userEmail := userEmail;
      this.file := file;
      state := Draft;
      total := 0;
      processed := 0;
      errors := None;
    }

    /** `job.user_id.email or False` is truthy. */
    predicate HasAddress() {
      userEmail.Some? && userEmail.value != ""
    }

    /**
     * The mail `_notify_user` sends for this job: subject
     * `"Employee Import: {name} - {state}"`, and the body's counters and
     * error text, `'No errors'` when `errors` is empty.
     */
    function Summary(): (m: Mail)
      reads this
      requires HasAddress()
      ensures m.emailTo == userEmail.value
      ensures m.subject == "Employee Import: " + name + " - " + StateName(state)
      ensures m.jobName == name && m.processed == processed && m.total == total
      ensures m.errorText == if errors.Some? && errors.value != "" then errors.value else "No errors"
    {
      Mail(userEmail.value, Subject(name, state), name, processed, total, ErrorText(errors))
    }

    /** What a run reads of the job: its name, its user's address and its file. */
    function Input(): JobInput {
      JobInput(name, userEmail, file)
    }

    /** The fields a run writes. */
    function Fields(): JobFields
      reads this
    {
      JobFields(state, total, processed, errors)
    }

    /** The job's fields are those of the finished outcome `o`. */
    predicate Shows(o: JobOutcome)
      reads this
    {
      Fields().Shows(o)
    }

    /** The job as the reset at the top of the run leaves it. */
    predicate JustReset()
      reads this
    {
      Fields().JustReset()
    }

    /** The bookkeeping a finished run leaves behind. */
    predicate Settled()
      reads this
    {
      Fields().Settled()
    }
  }

  /** The parts of a job a run writes. */
  datatype JobFields = JobFields(state: State, total: int, processed: int, errors: Option<string>) {
    /** These are the fields of the finished outcome `o`. */
    predicate Shows(o: JobOutcome) {
      o.Finished? && state == o.state && total == o.total && processed == o.processed && errors == o.errors
    }

    /** The fields as the reset at the top of the run leaves them. */
    predicate JustReset() {
      state == Running && total == 0 && processed == 0 && errors == None
    }

    /** The bookkeeping a finished run leaves behind. */
    predicate Settled() {
      && (state == Done || state == Failed)
      && 0 <= processed <= total
      && (state == Done <==> errors.None?)
      && (state == Done ==> processed == total)
    }
  }

  /** The parts of a job a run reads. */
  datatype JobInput = JobInput(name: string, userEmail: Option<string>, file: Workbook)

  function Subject(name: string, s: State): string {
    "Employee Import: " + name + " - " + StateName(s)
  }

  function ErrorText(errors: Option<string>): string {
    if errors.Some? && errors.value != "" then errors.value else "No errors"
  }

  /** The mail, if any, for a job with input `in` that finished as `o`. */
  function JobMail(job: JobInput, o: JobOutcome): seq<Mail>
    requires o.Finished?
  {
    if job.userEmail.Some? && job.userEmail.value != "" then
      [Mail(job.userEmail.value, Subject(job.name, o.state), job.name, o.processed, o.total, ErrorText(o.errors))]
    else []
  }

  /**
   * The mails `_notify_user` sends for a record set: one per job in order,
   * until the first job whose user has no address, where its `return`
   * ends the whole loop.
   */
  function Notifications(jobs: seq<ImportJob>): (r: seq<Mail>)
    reads set j | j in jobs
    ensures |r| <= |jobs|
  {
    if jobs == [] then []
    else if !jobs[0].HasAddress() then []
    else [jobs[0].Summary()] + Notifications(jobs[1..])
  }

  /**
   * Mail k is the summary of job k, nothing is mailed from the first job
   * without an address on, and every job before that one is mailed.
   */
  lemma {:induction false} NotificationsAt(jobs: seq<ImportJob>)
    ensures forall k :: 0 <= k < |Notifications(jobs)| ==>
              jobs[k].HasAddress() && Notifications(jobs)[k] == jobs[k].Summary()
    ensures forall k :: 0 <= k < |jobs| && !jobs[k].HasAddress() ==> |Notifications(jobs)| <= k
    ensures |Notifications(jobs)| == |jobs| || !jobs[|Notifications(jobs)|].HasAddress()
    decreases |jobs|
  {
    if jobs != [] && jobs[0].HasAddress() {
      NotificationsAt(jobs[1..]);
      assert forall k :: 1 <= k < |jobs| ==> jobs[1..][k - 1] == jobs[k];
    }
  }

  /** The mails from job `i` on: its own, then those of the jobs after it. */
  lemma NotificationsFrom(jobs: seq<ImportJob>, i: nat, mails: seq<Mail>)
    requires i < |jobs|
    ensures jobs[i].HasAddress() ==>
              mails + Notifications(jobs[i..]) == (mails + [jobs[i].Summary()]) + Notifications(jobs[i + 1..])
    ensures !jobs[i].HasAddress() ==> mails + Notifications(jobs[i..]) == mails
  {
    assert jobs[i..][0] == jobs[i] && jobs[i..][1..] == jobs[i + 1..];
  }

  /**
   * `_notify_user`.  The mails are collected in order and handed to the
   * outbox together; a failure to send is swallowed by the source and not
   * modelled.
   */
  method NotifyUsers(jobs: seq<ImportJob>, outbox: Outbox)
    modifies outbox
    ensures outbox.sent == old(outbox.sent) + Notifications(jobs)
  {
    var mails: seq<Mail> := [];
    var i := 0;
    while i < |jobs|
      modifies {}
      invariant 0 <= i <= |jobs|
      invariant Notifications(jobs) == mails + Notifications(jobs[i..])
    {
      NotificationsFrom(jobs, i, mails);
      if !jobs[i].HasAddress() {
        break;
      }
      var mail := jobs[i].Summary();
      mails := mails + [mail];
      i := i + 1;
    }
    if i == |jobs| {
      assert jobs[i..] == [];
    }
    outbox.sent := outbox.sent + mails;
  }

  /**
   * `action_start`: every job of the set becomes `pending`, whatever its
   * state was, and its `_enqueue_process` call is recorded when `queue_job`
   * is installed.
   */
  method ActionStart(jobs: seq<ImportJob>, queueAvailable: bool, dispatcher: Dispatcher)
    returns (ok: bool)
    modifies (set j | j in jobs), dispatcher
    ensures ok
    ensures forall j :: j in jobs ==> j.state == Pending
    ensures forall j :: j in jobs ==>
              && j.total == old(j.total) && j.processed == old(j.processed) && j.errors == old(j.errors)
    ensures dispatcher.queued == old(dispatcher.queued) + (if queueAvailable then jobs else [])
  {
    var i := 0;
    while i < |jobs|
      invariant 0 <= i <= |jobs|
      invariant forall k :: 0 <= k < i ==> jobs[k].state == Pending
      invariant forall j :: j in jobs ==>
                  && j.total == old(j.total) && j.processed == old(j.processed) && j.errors == old(j.errors)
      invariant dispatcher.queued == old(dispatcher.queued) + (if queueAvailable then jobs[..i] else [])
    {
      jobs[i].state := Pending;
      if queueAvailable {
        dispatcher.queued := dispatcher.queued + [jobs[i]];
      }
      assert jobs[..i + 1] == jobs[..i] + [jobs[i]];
      i := i + 1;
    }
    assert jobs[..i] == jobs;
    ok := true;
  }

  /**
   * One iteration of the row loop of `process_file`, for sheet row `rowNo`:
   * either one employee is created (`error == None`) or the row's error line
   * is returned and the store is untouched.
   */
  method ImportRow(m: map<string, nat>, row: Row, rowNo: nat, store: EmployeeStore)
    returns (error: Option<string>)
    modifies store
    ensures var o := ProcessRow(m, row, rowNo, old(store.employees), store.refuse);
            && (error.None? <==> o.Created?)
            && (o.Skipped? ==> error == Some(o.message))
            && store.employees == After(old(store.employees), o)
  {
    var fields := Extract(m, row);
    if fields.None? {
      return Some(MappingError(rowNo));
    }
    var f := fields.value;
    if !Truthy(f.name) {
      return Some(MissingName(rowNo));
    }
    var domain: seq<Term> := [];
    if Truthy(f.ident) {
      domain := domain + [IdentificationIs(PyStr(f.ident))];
    }
    if Truthy(f.workEmail) {
      domain := domain + [WorkEmailIs(f.workEmail)];
    }
    assert domain == Domain(f);
    var found := false;
    if domain != [] {
      found := store.Search(domain);
    }
    if found {
      return Some(Duplicate(rowNo));
    }
    var vals := Employee(f.name, OrFalse(f.workEmail), OrFalse(f.workPhone),
                         if Truthy(f.ident) then Str(PyStr(f.ident)) else Bool(false), true);
    assert vals == Vals(f);
    var refusal := store.Create(vals);
    if refusal.Some? {
      return Some(CreateError(rowNo, refusal.value));
    }
    return None;
  }

  /**
   * The row loop of `process_file` over the data rows (sheet rows 2, 3, ...):
   * each row either creates one employee in the store, which later rows then
   * see, or appends one error line.
   */
  method ImportRowsInto(m: map<string, nat>, data: seq<Row>, store: EmployeeStore)
    returns (created: nat, errs: seq<string>)
    modifies store
    ensures var r := ImportRows(m, data, old(store.employees), store.refuse);
            && store.employees == r.store
            && created == CreatedCount(r.outcomes) && errs == Messages(r.outcomes)
  {
    ghost var store0 := store.employees;
    created := 0;
    errs := [];
    ghost var outs: seq<RowOutcome> := [];
    ImportProperties.LoopStart(m, data, store0, store.refuse);
    var k := 0;
    while k < |data|
      invariant ImportProperties.LoopProgress(m, data, k, store0, store.refuse, outs, store.employees, created, errs)
    {
      ghost var before := store.employees;
      ghost var outcome := ProcessRow(m, data[k], k + 2, before, store.refuse);
      var error := ImportRow(m, data[k], k + 2, store);
      ImportProperties.RowStep(m, data, k, store0, store.refuse, outs, before, created, errs, error);
      if error.None? {
        created := created + 1;
      } else {
        errs := errs + [error.value];
      }
      outs := outs + [outcome];
      k := k + 1;
    }
    ImportProperties.LoopEnd(m, data, store0, store.refuse, outs, store.employees, created, errs);
  }

  /** A job whose fields show outcome `o` is mailed exactly `JobMail` of its input. */
  lemma NotificationOf(job: ImportJob, o: JobOutcome)
    requires job.Shows(o)
    ensures Notifications([job]) == JobMail(job.Input(), o)
  {
    assert [job][1..] == [];
  }

  /**
   * `process_file` for one job: reset, read the sheet, run the row loop
   * against the store, write the counters back and notify.  `crashed` when
   * the header row makes the method raise; the job is then as the reset
   * left it.
   */
  method ProcessJob(job: ImportJob, store: EmployeeStore, outbox: Outbox) returns (crashed: bool)
    modifies job, store, outbox
    ensures var o := RunJob(job.file, old(store.employees), store.refuse);
            if o.Crashed? then
              && crashed && job.JustReset() && store.employees == old(store.employees)
              && outbox.sent == old(outbox.sent)
            else
              && !crashed && job.Shows(o) && store.employees == o.store
              && outbox.sent == old(outbox.sent) + JobMail(job.Input(), o)
    ensures !crashed ==> job.Settled()
  {
    ghost var o := RunJob(job.file, store.employees, store.refuse);
    job.state := Running;
    job.processed := 0;
    job.total := 0;
    job.errors := None;
    if o.Finished? {
      ImportProperties.JobAccounting(job.file, store.employees, store.refuse);
    }

    if job.file.Unreadable? {
      job.state := Failed;
      job.errors := Some(ReadFailurePrefix + job.file.reason);
      NotifyUsers([job], outbox);
      NotificationOf(job, o);
      return false;
    }
    var rows := job.file.rows;
    if rows == [] {
      job.state := Failed;
      job.errors := Some(EmptyFileText);
      NotifyUsers([job], outbox);
      NotificationOf(job, o);
      return false;
    }
    var headerMap := HeaderMap(rows[0]);
    if headerMap.None? {
      return true;
    }
    var created, errs := ImportRowsInto(headerMap.value, rows[1..], store);
    job.total := created + |errs|;
    job.processed := created;
    job.errors := if errs == [] then None else Some(Join(errs, '\n'));
    job.state := if errs == [] then Done else Failed;
    NotifyUsers([job], outbox);
    NotificationOf(job, o);
    return false;
  }

  /** `process_file` when `openpyxl` cannot be imported: every job is marked failed, nothing is reset. */
  method MarkLibraryMissing(jobs: seq<ImportJob>)
    modifies set j | j in jobs
    ensures forall j :: j in jobs ==>
              && j.state == Failed && j.errors == Some("openpyxl not installed")
              && j.total == old(j.total) && j.processed == old(j.processed)
  {
    var i := 0;
    while i < |jobs|
      invariant 0 <= i <= |jobs|
      invariant forall k :: 0 <= k < i ==> jobs[k].state == Failed && jobs[k].errors == Some("openpyxl not installed")
      invariant forall j :: j in jobs ==>
                  && j.total == old(j.total) && j.processed == old(j.processed)
    {
      jobs[i].state := Failed;
      jobs[i].errors := Some("openpyxl not installed");
      i := i + 1;
    }
  }

  // ------------------------------------------------------------ a record set

  /** What the loop over a record set produces: one outcome per job run, and the store. */
  datatype SetRun = SetRun(outcomes: seq<JobOutcome>, store: seq<Employee>)

  /** The last job run raised, which ends the loop. */
  predicate Stopped(outs: seq<JobOutcome>) {
    outs != [] && outs[|outs| - 1].Crashed?
  }

  /** How many of the jobs run went to the end: all but one that raised. */
  function Completed(outs: seq<JobOutcome>): (n: nat)
    ensures n <= |outs| && (n == |outs| || n == |outs| - 1)
  {
    if Stopped(outs) then |outs| - 1 else |outs|
  }

  predicate Halted(r: SetRun) {
    Stopped(r.outcomes)
  }

  /** What one job does with its file and the store it finds. */
  type Runner = (Workbook, seq<Employee>) -> JobOutcome

  /** The run of `process_file` for one job, against a store that answers as `refuse` says. */
  function JobRun(refuse: Refusal): Runner {
    (file: Workbook, store: seq<Employee>) => RunJob(file, store, refuse)
  }

  /**
   * The loop of `process_file` over jobs with inputs `ins`: each job runs
   * against the store the jobs before it left, and a job whose header
   * raises ends the whole call.  `run` is what one job
   * does given its file and the store; `process_file` uses `JobRun`.
   */
  function RunAll(ins: seq<JobInput>, store: seq<Employee>, run: Runner): (r: SetRun)
    ensures |r.outcomes| <= |ins|
    ensures |r.outcomes| == |ins| || Halted(r)
    ensures forall k :: 0 <= k < |r.outcomes| - 1 ==> r.outcomes[k].Finished?
    decreases |ins|
  {
    if ins == [] then SetRun([], store)
    else
      var o := run(ins[0].file, store);
      if o.Crashed? then SetRun([Crashed], store)
      else
        var rest := RunAll(ins[1..], o.store, run);
        SetRun([o] + rest.outcomes, rest.store)
  }

  function Inputs(jobs: seq<ImportJob>): (r: seq<JobInput>)
    ensures |r| == |jobs| && forall k :: 0 <= k < |jobs| ==> r[k] == jobs[k].Input()
  {
    if jobs == [] then [] else [jobs[0].Input()] + Inputs(jobs[1..])
  }

  /** A record set without repetitions. */
  ghost predicate Distinct(jobs: seq<ImportJob>) {
    forall a, b :: 0 <= a < b < |jobs| ==> jobs[a] != jobs[b]
  }

  /** No job of a distinct record set other than number `i` is that job. */
  lemma DistinctAt(jobs: seq<ImportJob>, i: nat)
    requires Distinct(jobs) && i < |jobs|
    ensures forall k :: 0 <= k < |jobs| && k != i ==> jobs[k] != jobs[i]
  {
  }

  /** The store job `k` of a run starts from: the one the job before it left. */
  function StoreBefore(s0: seq<Employee>, outs: seq<JobOutcome>, k: nat): seq<Employee>
    requires k <= |outs| && (k > 0 ==> outs[k - 1].Finished?)
  {
    if k == 0 then s0 else outs[k - 1].store
  }

  /** The mails of the finished runs `outs` of the jobs `ins`, in order. */
  function MailsOf(ins: seq<JobInput>, outs: seq<JobOutcome>): seq<Mail>
    requires |outs| <= |ins| && forall k :: 0 <= k < |outs| ==> outs[k].Finished?
  {
    if outs == [] then []
    else MailsOf(ins, outs[..|outs| - 1]) + JobMail(ins[|outs| - 1], outs[|outs| - 1])
  }

  /**
   * `outs` are the outcomes of the first jobs of `ins`, each run against
   * the store the job before it left; all but the last finished.
   */
  predicate Trace(ins: seq<JobInput>, s0: seq<Employee>, refuse: Refusal, outs: seq<JobOutcome>) {
    && |outs| <= |ins|
    && (forall k :: 0 <= k < |outs| - 1 ==> outs[k].Finished?)
    && forall k :: 0 <= k < |outs| ==> RanAt(ins, s0, refuse, outs, k)
  }

  /** Job `k` ran against the store the job before it left. */
  predicate RanAt(ins: seq<JobInput>, s0: seq<Employee>, refuse: Refusal, outs: seq<JobOutcome>, k: nat)
    requires k < |outs| <= |ins| && (k > 0 ==> outs[k - 1].Finished?)
  {
    outs[k] == RunJob(ins[k].file, StoreBefore(s0, outs, k), refuse)
  }

  /** The next job's outcome extends a trace of finished jobs. */
  lemma TraceSnoc(ins: seq<JobInput>, s0: seq<Employee>, refuse: Refusal, outs: seq<JobOutcome>, o: JobOutcome)
    requires Trace(ins, s0, refuse, outs) && |outs| < |ins| && forall k :: 0 <= k < |outs| ==> outs[k].Finished?
    requires o == RunJob(ins[|outs|].file, StoreBefore(s0, outs, |outs|), refuse)
    ensures Trace(ins, s0, refuse, outs + [o])
  {
    var next := outs + [o];
    forall k | 0 <= k < |next|
      ensures RanAt(ins, s0, refuse, next, k)
    {
      if k < |outs| {
        assert RanAt(ins, s0, refuse, outs, k);
        assert StoreBefore(s0, next, k) == StoreBefore(s0, outs, k);
      }
    }
  }

  /** One more finished job adds its mails at the end. */
  lemma MailsSnoc(ins: seq<JobInput>, outs: seq<JobOutcome>, o: JobOutcome)
    requires |outs| < |ins| && o.Finished? && forall k :: 0 <= k < |outs| ==> outs[k].Finished?
    ensures MailsOf(ins, outs + [o]) == MailsOf(ins, outs) + JobMail(ins[|outs|], o)
  {
    assert (outs + [o])[..|outs|] == outs;
  }

  /**
   * Job `k` of the loop runs against the store the job before it left, and
   * its outcome is the `k`-th.
   */
  lemma {:induction false} RunAllAt(ins: seq<JobInput>, s0: seq<Employee>, run: Runner, k: nat)
    requires k < |RunAll(ins, s0, run).outcomes|
    ensures var r := RunAll(ins, s0, run);
            r.outcomes[k] == run(ins[k].file, StoreBefore(s0, r.outcomes, k))
    decreases k
  {
    if k > 0 {
      var r := RunAll(ins, s0, run);
      var o := run(ins[0].file, s0);
      assert r.outcomes[0] == o;
      var rest := RunAll(ins[1..], o.store, run);
      RunAllAt(ins[1..], o.store, run, k - 1);
      assert r.outcomes[k] == rest.outcomes[k - 1] && ins[1..][k - 1] == ins[k];
      assert StoreBefore(s0, r.outcomes, k) == StoreBefore(o.store, rest.outcomes, k - 1);
    }
  }

  /** The loop ends with the store the last finished job left. */
  lemma {:induction false} RunAllStore(ins: seq<JobInput>, s0: seq<Employee>, run: Runner)
    ensures var r := RunAll(ins, s0, run);
            r.store == StoreBefore(s0, r.outcomes, Completed(r.outcomes))
    decreases |ins|
  {
    if ins != [] {
      var o := run(ins[0].file, s0);
      if o.Finished? {
        var rest := RunAll(ins[1..], o.store, run);
        RunAllStore(ins[1..], o.store, run);
        var outs := RunAll(ins, s0, run).outcomes;
        assert outs == [o] + rest.outcomes;
        assert Completed(outs) == Completed(rest.outcomes) + 1;
      }
    }
  }

  /**
   * Conversely, a trace that covers every job or stops at a raising one is
   * the run's list of outcomes: the loop has no other way to go.
   */
  lemma {:induction false} TraceIsRunAll(ins: seq<JobInput>, s0: seq<Employee>, refuse: Refusal, outs: seq<JobOutcome>)
    requires Trace(ins, s0, refuse, outs) && (|outs| == |ins| || Stopped(outs))
    ensures RunAll(ins, s0, JobRun(refuse)).outcomes == outs
    decreases |ins|
  {
    if ins != [] {
      var o := RunJob(ins[0].file, s0, refuse);
      assert RanAt(ins, s0, refuse, outs, 0);
      if o.Finished? {
        var tail := outs[1..];
        forall k | 0 <= k < |tail|
          ensures RanAt(ins[1..], o.store, refuse, tail, k)
        {
          assert RanAt(ins, s0, refuse, outs, k + 1);
          assert tail[k] == outs[k + 1] && ins[1..][k] == ins[k + 1];
          assert StoreBefore(o.store, tail, k) == StoreBefore(s0, outs, k + 1);
        }
        TraceIsRunAll(ins[1..], o.store, refuse, tail);
        assert outs == [o] + tail;
      }
    }
  }

  /** The employees already present stay, at their places, whatever the jobs do. */
  lemma {:induction false} RunAllKeepsStore(ins: seq<JobInput>, store: seq<Employee>, refuse: Refusal)
    ensures var r := RunAll(ins, store, JobRun(refuse));
            |store| <= |r.store| && r.store[..|store|] == store
    decreases |ins|
  {
    if ins != [] {
      var o := RunJob(ins[0].file, store, refuse);
      if o.Finished? {
        ImportProperties.JobAccounting(ins[0].file, store, refuse);
        RunAllKeepsStore(ins[1..], o.store, refuse);
        var s := RunAll(ins[1..], o.store, JobRun(refuse)).store;
        assert s[..|store|] == s[..|o.store|][..|store|];
      }
    }
  }

  /** The written fields of every job of the set, in order. */
  function Snapshot(jobs: seq<ImportJob>): (r: seq<JobFields>)
    reads set j | j in jobs
    ensures |r| == |jobs| && forall k :: 0 <= k < |jobs| ==> r[k] == jobs[k].Fields()
  {
    if jobs == [] then [] else [jobs[0].Fields()] + Snapshot(jobs[1..])
  }

  /**
   * What the loop over jobs with inputs `ins` leaves when the spreadsheet
   * library is present, starting from store `s0`, outbox `sent0` and job
   * fields `before`: the store `RunAll` computes, the mails of the jobs it
   * finished in their order, each such job's fields in `now` showing its
   * outcome, a job that raised as the reset left it, and every job after
   * it untouched.
   */
  ghost predicate RanInOrder(ins: seq<JobInput>, s0: seq<Employee>, sent0: seq<Mail>, before: seq<JobFields>,
                             refuse: Refusal, employees: seq<Employee>, sent: seq<Mail>, now: seq<JobFields>,
                             crashed: bool)
  {
    var r := RunAll(ins, s0, JobRun(refuse));
    var n := Completed(r.outcomes);
    && |before| == |now| == |ins|
    && employees == r.store
    && sent == sent0 + MailsOf(ins, r.outcomes[..n])
    && (crashed <==> Halted(r))
    && (forall k :: 0 <= k < n ==> now[k].Shows(r.outcomes[k]) && now[k].Settled())
    && (crashed ==> now[n].JustReset())
    && (forall k :: |r.outcomes| <= k < |ins| ==> now[k] == before[k])
  }

  /** A loop that ran every job, or stopped at one that raised, ran as `RunAll` says. */
  lemma LoopIsRunAll(ins: seq<JobInput>, s0: seq<Employee>, sent0: seq<Mail>, before: seq<JobFields>,
                     refuse: Refusal, employees: seq<Employee>, sent: seq<Mail>, now: seq<JobFields>,
                     outs: seq<JobOutcome>, crashed: bool)
    requires Progressed(ins, s0, sent0, before, refuse, employees, sent, now, outs, Completed(outs))
    requires crashed == Stopped(outs) && (crashed || |outs| == |ins|)
    ensures RanInOrder(ins, s0, sent0, before, refuse, employees, sent, now, crashed)
  {
    TraceIsRunAll(ins, s0, refuse, outs);
    RunAllStore(ins, s0, JobRun(refuse));
  }

  /**
   * Where the loop of `process_file` over jobs with inputs `ins` stands
   * once the jobs of `outs` ran, the first `n` of them to the end: they ran
   * as the trace says, the store holds `employees` and the outbox `sent`
   * (`sent0` at the start) as the finished ones left them, each finished
   * job's fields in `now` show its outcome, one that raised is as the
   * reset left it, and every job not run yet still has the fields `before`
   * lists.
   */
  ghost predicate Progressed(ins: seq<JobInput>, s0: seq<Employee>, sent0: seq<Mail>, before: seq<JobFields>,
                             refuse: Refusal, employees: seq<Employee>, sent: seq<Mail>, now: seq<JobFields>,
                             outs: seq<JobOutcome>, n: nat)
  {
    && |before| == |now| == |ins| && n <= |outs| <= |ins|
    && (forall k :: 0 <= k < n ==> outs[k].Finished?)
    && Trace(ins, s0, refuse, outs)
    && employees == StoreBefore(s0, outs, n)
    && sent == sent0 + MailsOf(ins, outs[..n])
    && (forall k :: 0 <= k < n ==> now[k].Shows(outs[k]) && now[k].Settled())
    && (n < |outs| ==> now[n].JustReset())
    && (forall k :: |outs| <= k < |ins| ==> now[k] == before[k])
  }

  /**
   * The loop of `process_file` over a record set when the spreadsheet
   * library is present: the jobs run in order, each against the store the
   * previous ones left, and the loop stops at a job whose header raises.
   * `outs` lists the outcome of every job run.
   */
  method RunJobs(jobs: seq<ImportJob>, store: EmployeeStore, outbox: Outbox)
    returns (crashed: bool, ghost outs: seq<JobOutcome>)
    requires Distinct(jobs)
    modifies (set j | j in jobs), store, outbox
    ensures crashed == Stopped(outs) && (crashed || |outs| == |jobs|)
    ensures Progressed(Inputs(jobs), old(store.employees), old(outbox.sent), old(Snapshot(jobs)), store.refuse,
                       store.employees, outbox.sent, Snapshot(jobs), outs, Completed(outs))
  {
    ghost var ins, s0, sent0, before := Inputs(jobs), store.employees, outbox.sent, Snapshot(jobs);
    outs := [];
    crashed := false;
    assert outs[..0] == [];
    var i := 0;
    while i < |jobs| && !crashed
      invariant |outs| == i <= |jobs|
      invariant crashed == Stopped(outs)
      // compared with `true` so that it is checked as a whole, as `RunNext` ensures it
      invariant Progressed(ins, s0, sent0, before, store.refuse, store.employees, outbox.sent, Snapshot(jobs),
                           outs, Completed(outs)) == true
    {
      ghost var o;
      crashed, o := RunNext(jobs, i, store, outbox, s0, sent0, before, outs);
      outs := outs + [o];
      i := i + 1;
    }
  }

  /** Job `i` of the loop moves it on by one job. */
  method RunNext(jobs: seq<ImportJob>, i: nat, store: EmployeeStore, outbox: Outbox,
                 ghost s0: seq<Employee>, ghost sent0: seq<Mail>, ghost before: seq<JobFields>,
                 ghost outs: seq<JobOutcome>)
    returns (crashed: bool, ghost o: JobOutcome)
    requires Distinct(jobs) && i < |jobs| && |outs| == i && !Stopped(outs)
    requires Progressed(Inputs(jobs), s0, sent0, before, store.refuse, store.employees, outbox.sent,
                        Snapshot(jobs), outs, Completed(outs))
    modifies jobs[i], store, outbox
    ensures crashed == o.Crashed?
    ensures Progressed(Inputs(jobs), s0, sent0, before, store.refuse, store.employees, outbox.sent,
                       Snapshot(jobs), outs + [o], Completed(outs + [o]))
  {
    crashed, o := ProcessAt(jobs, i, store, outbox, s0, outs);
    Advance(Inputs(jobs), s0, sent0, before, store.refuse, old(store.employees), old(outbox.sent),
            old(Snapshot(jobs)), outs, o, crashed, store.employees, outbox.sent, Snapshot(jobs));
  }

  /**
   * Job `i` of the loop runs against the store the jobs before it left:
   * the trace grows by its outcome, and no other job changes.
   */
  method ProcessAt(jobs: seq<ImportJob>, i: nat, store: EmployeeStore, outbox: Outbox,
                   ghost s0: seq<Employee>, ghost outs: seq<JobOutcome>)
    returns (crashed: bool, ghost o: JobOutcome)
    requires Distinct(jobs) && i < |jobs| && |outs| == i
    requires Trace(Inputs(jobs), s0, store.refuse, outs) && forall k :: 0 <= k < i ==> outs[k].Finished?
    requires store.employees == StoreBefore(s0, outs, i)
    modifies jobs[i], store, outbox
    ensures Trace(Inputs(jobs), s0, store.refuse, outs + [o]) && crashed == o.Crashed?
    ensures forall k :: 0 <= k < |jobs| && k != i ==> jobs[k].Fields() == old(jobs[k].Fields())
    ensures crashed ==> jobs[i].JustReset() && store.employees == old(store.employees) && outbox.sent == old(outbox.sent)
    ensures !crashed ==>
              && jobs[i].Shows(o) && jobs[i].Settled() && store.employees == o.store
              && outbox.sent == old(outbox.sent) + JobMail(Inputs(jobs)[i], o)
  {
    ghost var ins := Inputs(jobs);
    o := RunJob(jobs[i].file, store.employees, store.refuse);
    assert ins[i] == jobs[i].Input();
    DistinctAt(jobs, i);
    TraceSnoc(ins, s0, store.refuse, outs, o);
    crashed := ProcessJob(jobs[i], store, outbox);
  }

  /**
   * One more job moves the loop on: it ends the loop if it raised,
   * otherwise its fields, store and mails join the finished ones.
   */
  lemma Advance(ins: seq<JobInput>, s0: seq<Employee>, sent0: seq<Mail>, before: seq<JobFields>, refuse: Refusal,
                employees: seq<Employee>, sent: seq<Mail>, now: seq<JobFields>, outs: seq<JobOutcome>,
                o: JobOutcome, crashed: bool, employees': seq<Employee>, sent': seq<Mail>, now': seq<JobFields>)
    requires |outs| < |ins| && !Stopped(outs)
    requires Progressed(ins, s0, sent0, before, refuse, employees, sent, now, outs, Completed(outs))
    requires Trace(ins, s0, refuse, outs + [o]) && crashed == o.Crashed?
    requires |now'| == |now| && forall k :: 0 <= k < |now| && k != |outs| ==> now'[k] == now[k]
    requires crashed ==> employees' == employees && sent' == sent
    requires crashed ==> now'[|outs|].JustReset()
    requires !crashed ==>
               && now'[|outs|].Shows(o) && now'[|outs|].Settled()
               && employees' == o.store && sent' == sent + JobMail(ins[|outs|], o)
    ensures Progressed(ins, s0, sent0, before, refuse, employees', sent', now', outs + [o], Completed(outs + [o]))
  {
    var next := outs + [o];
    assert outs[..|outs|] == outs;
    if crashed {
      assert next[..|outs|] == outs;
    } else {
      MailsSnoc(ins, outs, o);
      assert next[..|outs| + 1] == next;
    }
  }

  /**
   * `process_file` on a record set.  Without the spreadsheet library every
   * job is marked failed and nothing else changes; with it, the jobs run as
   * `RunAll` says.
   */
  method ProcessFile(jobs: seq<ImportJob>, store: EmployeeStore, outbox: Outbox, libraryAvailable: bool)
    returns (crashed: bool)
    requires Distinct(jobs)
    modifies (set j | j in jobs), store, outbox
    ensures !libraryAvailable ==>
              && !crashed && store.employees == old(store.employees) && outbox.sent == old(outbox.sent)
              && forall j :: j in jobs ==>
                   && j.state == Failed && j.errors == Some("openpyxl not installed")
                   && j.total == old(j.total) && j.processed == old(j.processed)
    ensures libraryAvailable ==>
              RanInOrder(Inputs(jobs), old(store.employees), old(outbox.sent), old(Snapshot(jobs)), store.refuse,
                         store.employees, outbox.sent, Snapshot(jobs), crashed)
  {
    if !libraryAvailable {
      MarkLibraryMissing(jobs);
      return false;
    }
    ghost var outs;
    crashed, outs := RunJobs(jobs, store, outbox);
    LoopIsRunAll(Inputs(jobs), old(store.employees), old(outbox.sent), old(Snapshot(jobs)), store.refuse,
                 store.employees, outbox.sent, Snapshot(jobs), outs, crashed);
  }
}

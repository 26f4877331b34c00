/**
 * The per-user storage quota over whole runs (server/src/services/quota.service.ts, and the
 * worker's admission check and status updates in server/src/queue/backup.queue.ts).
 *
 * The worker takes one job at a time; deletions, retention passes and quota changes happen
 * between any two of its statements.
 */
module Quota {
  import opened Prelude
  import opened Retention

  /** getQuotaUsage: the sizes of a user's COMPLETED backups. */
  function Used(rows: seq<Backup>, u: User): nat {
    if rows == [] then 0 else Counts(rows[0], u) + Used(rows[1..], u)
  }

  function Counts(b: Backup, u: User): nat {
    if b.status == COMPLETED && b.user == u then b.size else 0
  }

  /** assertQuotaAllowsFile, on the usage and quota it has just read. */
  predicate Allows(used: nat, quota: Option<nat>, fileSize: int) {
    var incoming := if fileSize < 0 then 0 else fileSize;
    quota == None || used + incoming <= quota.value
  }

  /** An update of the row with this id, if there is one. */
  function Update(rows: seq<Backup>, id: Id, status: Status, size: Option<nat>): seq<Backup> {
    if rows == [] then []
    else (if rows[0].id == id then [rows[0].(status := status, size := if size.Some? then size.value else rows[0].size)] else [rows[0]])
         + Update(rows[1..], id, status, size)
  }

  /** Where the worker stands with the backup it holds. */
  datatype Phase = Started | Admitted(size: nat) | Recorded

  datatype Job = Job(id: Id, user: User, phase: Phase)

  datatype State = State(rows: seq<Backup>, quotas: map<User, Option<nat>>, job: Option<Job>)

  function QuotaOf(s: State, u: User): Option<nat> {
    if u in s.quotas then s.quotas[u] else None
  }

  datatype Step =
    | Create(backup: Backup)
    | Start(backup: Backup)
    | Check(fileSize: nat)
    | Complete
    | Fail
    | Release
    | Delete(id: Id)
    | Retain(connection: Option<Conn>, now: int, policy: Policy)
    | SetQuota(user: User, quota: Option<nat>)

  /** A row is created with a fresh id and the current time, so it is the newest; a job starts, or starts again, from any status. */
  ghost predicate Can(s: State, step: Step) {
    match step
    case Create(b) =>
      && b.status == PENDING
      && (s.job.Some? ==> s.job.value.id != b.id)
      && forall d :: d in s.rows ==> d.createdAt <= b.createdAt && d.id != b.id
    case Start(b) => s.job == None && b in s.rows
    case Check(_) => s.job.Some? && s.job.value.phase.Started?
    case Complete => s.job.Some? && s.job.value.phase.Admitted?
    case Fail => s.job.Some?
    case Release => s.job.Some?
    case Delete(_) => true
    case Retain(_, _, _) => true
    case SetQuota(_, _) => true
  }

  /**
   * After `Complete` the job can still fail, and its row then becomes FAILED. `Release` is the end
   * of a job, or the death of the worker at any point; a later `Start` is the retry.
   */
  function Next(s: State, step: Step): State
    requires Can(s, step)
  {
    match step
    case Create(b) => s.(rows := [b] + s.rows)
    case Start(b) => s.(rows := Update(s.rows, b.id, RUNNING, None), job := Some(Job(b.id, b.user, Started)))
    case Check(fileSize) =>
      var job := s.job.value;
      if Allows(Used(s.rows, job.user), QuotaOf(s, job.user), fileSize)
      then s.(job := Some(job.(phase := Admitted(fileSize))))
      else s.(rows := Update(s.rows, job.id, FAILED, None), job := None)
    case Complete =>
      var job := s.job.value;
      s.(rows := Update(s.rows, job.id, COMPLETED, Some(job.phase.size)), job := Some(job.(phase := Recorded)))
    case Fail => s.(rows := Update(s.rows, s.job.value.id, FAILED, None), job := None)
    case Release => s.(job := None)
    case Delete(id) => s.(rows := Without(s.rows, {id}))
    case Retain(c, now, p) => s.(rows := Enforced(s.rows, c, now, p))
    case SetQuota(u, q) => s.(quotas := s.quotas[u := q])
  }

  ghost predicate Run(s: State, steps: seq<Step>)
    decreases steps
  {
    steps == [] || (Can(s, steps[0]) && Run(Next(s, steps[0]), steps[1..]))
  }

  ghost function After(s: State, steps: seq<Step>): State
    requires Run(s, steps)
    decreases steps
  {
    if steps == [] then s else After(Next(s, steps[0]), steps[1..])
  }

  // ── Usage under updates and deletions ──

  lemma {:induction false} UsedWithout(rows: seq<Backup>, ids: set<Id>, u: User)
    ensures Used(rows, u) == Used(Without(rows, ids), u) + Used(Only(rows, ids), u)
  {
    if rows != [] {
      UsedWithout(rows[1..], ids, u);
      assert ([rows[0]] + Only(rows[1..], ids))[1..] == Only(rows[1..], ids);
      assert ([rows[0]] + Without(rows[1..], ids))[1..] == Without(rows[1..], ids);
    }
  }

  lemma {:induction false} UpdateAbsent(rows: seq<Backup>, id: Id, status: Status, size: Option<nat>)
    requires forall b :: b in rows ==> b.id != id
    ensures Update(rows, id, status, size) == rows
  {
    if rows != [] { UpdateAbsent(rows[1..], id, status, size); }
  }

  function Updated(b: Backup, status: Status, size: Option<nat>): Backup {
    b.(status := status, size := if size.Some? then size.value else b.size)
  }

  /** An update changes usage by what its one row counts for before and after. */
  lemma {:induction false} UsedUpdate(rows: seq<Backup>, b: Backup, status: Status, size: Option<nat>, u: User)
    requires Valid(rows) && b in rows
    ensures Used(Update(rows, b.id, status, size), u) + Counts(b, u) == Used(rows, u) + Counts(Updated(b, status, size), u)
  {
    ValidTail(rows);
    var rest := Update(rows[1..], b.id, status, size);
    if rows[0].id == b.id {
      assert rows[0] == b by { if b in rows[1..] { assert false; } }
      UpdateAbsent(rows[1..], b.id, status, size);
      assert ([Updated(b, status, size)] + rest)[1..] == rest;
    } else {
      hide Valid;
      UsedUpdate(rows[1..], b, status, size, u);
      assert ([rows[0]] + rest)[1..] == rest;
    }
  }

  lemma {:induction false} UpdateRows(rows: seq<Backup>, id: Id, status: Status, size: Option<nat>)
    ensures var r := Update(rows, id, status, size);
            && |r| == |rows|
            && forall i :: 0 <= i < |rows| ==> r[i] == if rows[i].id == id then Updated(rows[i], status, size) else rows[i]
  {
    if rows != [] { UpdateRows(rows[1..], id, status, size); }
  }

  lemma UpdateKeepsValid(rows: seq<Backup>, id: Id, status: Status, size: Option<nat>)
    requires Valid(rows)
    ensures Valid(Update(rows, id, status, size))
  {
    UpdateRows(rows, id, status, size);
  }

  // ── The invariant ──

  /** What the job in hand is about to add to a user's usage. */
  function Incoming(s: State, u: User): nat {
    if s.job.Some? && s.job.value.phase.Admitted? && s.job.value.user == u then s.job.value.phase.size else 0
  }

  predicate Fits(s: State, u: User) {
    QuotaOf(s, u) == None || Used(s.rows, u) + Incoming(s, u) <= QuotaOf(s, u).value
  }

  /** Until it is recorded, a held job's own row does not count. */
  ghost predicate JobInv(s: State) {
    s.job.Some? ==> forall b :: b in s.rows && b.id == s.job.value.id ==>
      b.user == s.job.value.user && (s.job.value.phase.Recorded? || b.status == RUNNING)
  }

  ghost predicate Inv(s: State) {
    Valid(s.rows) && JobInv(s) && forall u :: Fits(s, u)
  }

  /** A quota may be set freely as long as it covers what is stored and admitted. */
  predicate Covers(s: State, step: Step) {
    step.SetQuota? && step.quota.Some? ==> Used(s.rows, step.user) + Incoming(s, step.user) <= step.quota.value
  }

  /** Usage plus the admitted dump never grows, except by an admission that fits. */
  lemma StepFits(s: State, step: Step, u: User)
    requires Inv(s) && Can(s, step) && Covers(s, step)
    ensures Fits(Next(s, step), u)
  {
    hide Valid, Enforced;
    assert Fits(s, u);
    match step
    case Create(b) => assert ([b] + s.rows)[1..] == s.rows;
    case Start(b) => UsedUpdate(s.rows, b, RUNNING, None, u);
    case Check(fileSize) => RejectKeepsUsage(s, u);
    case Complete => CompleteAddsAdmitted(s, u);
    case Fail => RejectKeepsUsage(s, u);
    case Delete(id) => UsedWithout(s.rows, {id}, u);
    case Retain(c, now, p) =>
      EnforcedIs(s.rows, c, now, p);
      UsedWithout(s.rows, Doomed(CompletedOf(s.rows, c), now, p), u);
    case _ =>
  }

  lemma RejectKeepsUsage(s: State, u: User)
    requires Inv(s) && s.job.Some?
    ensures Used(Update(s.rows, s.job.value.id, FAILED, None), u) <= Used(s.rows, u)
  {
    hide Valid;
    if b :| b in s.rows && b.id == s.job.value.id {
      UsedUpdate(s.rows, b, FAILED, None, u);
    } else {
      UpdateAbsent(s.rows, s.job.value.id, FAILED, None);
    }
  }

  /** Recording a completed dump adds exactly the admitted size to its owner, if its row still exists. */
  lemma CompleteAddsAdmitted(s: State, u: User)
    requires Inv(s) && Can(s, Complete)
    ensures var t := Next(s, Complete);
            Used(t.rows, u) == Used(s.rows, u)
              + if (exists b :: b in s.rows && b.id == s.job.value.id) then Incoming(s, u) else 0
  {
    hide Valid;
    var job := s.job.value;
    if b :| b in s.rows && b.id == job.id {
      UsedUpdate(s.rows, b, COMPLETED, Some(job.phase.size), u);
    } else {
      UpdateAbsent(s.rows, job.id, COMPLETED, Some(job.phase.size));
    }
  }

  lemma StepKeepsRows(s: State, step: Step)
    requires Valid(s.rows) && JobInv(s) && Can(s, step)
    ensures Valid(Next(s, step).rows) && JobInv(Next(s, step))
  {
    hide Valid, Enforced, Used, Update;
    match step
    case Create(b) => ValidCons(b, s.rows);
    case Start(b) => UpdateKeeps(s.rows, b.id, RUNNING, None); SameIdSame(s.rows, b);
    case Check(_) => UpdateKeeps(s.rows, s.job.value.id, FAILED, None);
    case Complete => UpdateKeeps(s.rows, s.job.value.id, COMPLETED, Some(s.job.value.phase.size));
    case Fail => UpdateKeeps(s.rows, s.job.value.id, FAILED, None);
    case Delete(id) => WithoutKeepsValid(s.rows, {id});
    case Retain(c, now, p) =>
      EnforcedIs(s.rows, c, now, p);
      WithoutKeepsValid(s.rows, Doomed(CompletedOf(s.rows, c), now, p));
    case _ =>
  }

  lemma UpdateKeeps(rows: seq<Backup>, id: Id, status: Status, size: Option<nat>)
    requires Valid(rows)
    ensures Valid(Update(rows, id, status, size))
    ensures forall b :: b in Update(rows, id, status, size) ==>
              exists d :: d in rows && d.id == b.id && b == if d.id == id then Updated(d, status, size) else d
  {
    UpdateKeepsValid(rows, id, status, size);
    UpdateRows(rows, id, status, size);
    hide Valid;
    forall b | b in Update(rows, id, status, size)
      ensures exists d :: d in rows && d.id == b.id && b == if d.id == id then Updated(d, status, size) else d
    {
      var i :| 0 <= i < |rows| && Update(rows, id, status, size)[i] == b;
      assert rows[i] in rows;
    }
  }

  lemma SameIdSame(rows: seq<Backup>, b: Backup)
    requires Valid(rows) && b in rows
    ensures forall d :: d in rows && d.id == b.id ==> d == b
  {
    forall d | d in rows && d.id == b.id ensures d == b { SameIdSameRow(rows, b, d); }
  }

  /** The quota invariant survives a step exactly when that step does not set a quota too small. */
  lemma StepKeepsInv(s: State, step: Step)
    requires Inv(s) && Can(s, step)
    ensures Inv(Next(s, step)) <==> Covers(s, step)
  {
    StepKeepsRows(s, step);
    hide Valid, JobInv, Enforced, Used, Update;
    if Covers(s, step) {
      forall u ensures Fits(Next(s, step), u) { StepFits(s, step, u); }
    } else {
      assert !Fits(Next(s, step), step.user);
    }
  }

  ghost predicate AllCover(s: State, steps: seq<Step>)
    requires Run(s, steps)
    decreases steps
  {
    steps == [] || (Covers(s, steps[0]) && AllCover(Next(s, steps[0]), steps[1..]))
  }

  ghost predicate NeverLowers(s: State, steps: seq<Step>)
    requires Run(s, steps)
    decreases steps
  {
    steps == [] || (!Lowers(s, steps[0]) && NeverLowers(Next(s, steps[0]), steps[1..]))
  }

  predicate Lowers(s: State, step: Step) {
    && step.SetQuota? && step.quota.Some?
    && (QuotaOf(s, step.user) == None || step.quota.value < QuotaOf(s, step.user).value)
  }

  /**
   * Whatever jobs, retries, failures, deletions and retention passes a run makes, in any order: if
   * no quota is lowered, no user's COMPLETED backups exceed that user's quota.
   */
  lemma {:induction false} UsageStaysWithinQuota(s: State, steps: seq<Step>, u: User)
    requires Inv(s) && Run(s, steps) && NeverLowers(s, steps)
    ensures Inv(After(s, steps))
    ensures QuotaOf(After(s, steps), u) == None || Used(After(s, steps).rows, u) <= QuotaOf(After(s, steps), u).value
    decreases steps
  {
    hide Next, Can, Used, Valid, JobInv;
    if steps != [] {
      if steps[0].SetQuota? { assert Fits(s, steps[0].user); }
      StepKeepsInv(s, steps[0]);
      UsageStaysWithinQuota(Next(s, steps[0]), steps[1..], u);
    } else {
      assert Fits(s, u);
    }
  }

  /** The same holds with lowered quotas, as long as each covers what is stored and admitted when it is set. */
  lemma {:induction false} UsageWithinCoveringQuota(s: State, steps: seq<Step>, u: User)
    requires Inv(s) && Run(s, steps) && AllCover(s, steps)
    ensures Inv(After(s, steps))
    ensures QuotaOf(After(s, steps), u) == None || Used(After(s, steps).rows, u) <= QuotaOf(After(s, steps), u).value
    decreases steps
  {
    hide Next, Can, Used, Valid, JobInv;
    if steps != [] {
      StepKeepsInv(s, steps[0]);
      UsageWithinCoveringQuota(Next(s, steps[0]), steps[1..], u);
    } else {
      assert Fits(s, u);
    }
  }

  /** A retried job is not counted twice: its verdict is on the usage of all other rows. */
  lemma RetryNotCountedTwice(s: State, fileSize: nat)
    requires Inv(s) && Can(s, Check(fileSize))
    ensures var job := s.job.value;
            var others := Used(Without(s.rows, {job.id}), job.user);
            var t := Next(s, Check(fileSize));
            t.job == Some(job.(phase := Admitted(fileSize))) <==>
              QuotaOf(s, job.user) == None || others + fileSize <= QuotaOf(s, job.user).value
  {
    var job := s.job.value;
    UsedWithout(s.rows, {job.id}, job.user);
    UncountedRows(Only(s.rows, {job.id}), job.user);
  }

  /** A job that does not fit is given up, and its row, if it still exists, is marked FAILED. */
  lemma RefusedRowFails(s: State, fileSize: nat)
    requires Inv(s) && Can(s, Check(fileSize))
    ensures var job := s.job.value;
            var t := Next(s, Check(fileSize));
            if QuotaOf(s, job.user) == None || Used(s.rows, job.user) + fileSize <= QuotaOf(s, job.user).value
            then t == s.(job := Some(Job(job.id, job.user, Admitted(fileSize))))
            else
              && t.job == None && t.quotas == s.quotas && |t.rows| == |s.rows|
              && forall i :: 0 <= i < |s.rows| ==>
                   t.rows[i] == if s.rows[i].id == job.id then s.rows[i].(status := FAILED) else s.rows[i]
  {
    UpdateRows(s.rows, s.job.value.id, FAILED, None);
    hide Inv, Used, Update;
  }

  lemma {:induction false} UncountedRows(rows: seq<Backup>, u: User)
    requires forall b :: b in rows ==> b.status != COMPLETED
    ensures Used(rows, u) == 0
  {
    if rows != [] { UncountedRows(rows[1..], u); }
  }

  lemma {:induction false} UsedOfOwn(rows: seq<Backup>, u: User, v: User)
    requires forall b :: b in rows ==> b.status == COMPLETED && b.user == u
    ensures Used(rows, u) == Bytes(rows)
    ensures v != u ==> Used(rows, v) == 0
  {
    if rows != [] { UsedOfOwn(rows[1..], u, v); }
  }

  /**
   * A retention pass over a connection whose backups are one user's lowers that user's usage by
   * exactly the bytes the pass reports freed, and nobody else's.
   */
  lemma RetentionFreesUsage(rows: seq<Backup>, c: Option<Conn>, now: int, p: Policy, u: User, v: User)
    requires Valid(rows) && (forall b :: b in CompletedOf(rows, c) ==> b.user == u) && v != u
    ensures var t := Enforced(rows, c, now, p);
            && Used(t, u) == Used(rows, u) - (Bytes(CompletedOf(rows, c)) - Bytes(CompletedOf(t, c)))
            && Used(t, v) == Used(rows, v)
  {
    var ids := Doomed(CompletedOf(rows, c), now, p);
    PassAccounts(rows, c, now, p);
    EnforcedIs(rows, c, now, p);
    UsedWithout(rows, ids, u);
    UsedWithout(rows, ids, v);
    DoomedAreRows(CompletedOf(rows, c), now, p);
    forall b | b in Only(rows, ids) ensures b.status == COMPLETED && b.user == u {
      var d :| d in CompletedOf(rows, c) && d.id == b.id;
      SameIdSameRow(rows, b, d);
    }
    hide Valid, Enforced, Doomed;
    UsedOfOwn(Only(rows, ids), u, v);
  }
}

/**
 The whole control plane: any number of executions, started by clients that may retry with an
 idempotency key, each driven by the machine of KernelWorker, under crashes that hit them all.
 */
module ControlPlane {
  import opened Wrappers
  import opened Lifecycle
  import opened KernelProof
  import opened Storage
  import opened KernelWorker
  import opened WorkerSafety
  import opened WorkerRuns

  type System = map<string, Exec>

  function Rows(s: System): map<string, Record> {
    map id | id in s :: s[id].world.rec
  }

  function Started(r: Record, clock: nat): Exec {
    Exec(World(r, [], [], [], clock), Idle, Idle, false)
  }

  function Crashed(x: Exec): Exec {
    x.(worker := Idle, control := Reconcile, booting := true)
  }

  /** A client's start request, as the arguments of create_execution. */
  datatype Request = Request(id: string, session: string, source: Bytes, hash: int, key: Option<string>, timeout: Option<int>)

  /** The request is answered by the store; a new row is a new execution. */
  ghost predicate Starts(s: System, t: System, sessions: map<string, Identity>, req: Request,
                         result: Result<string, StoreError>, rows: map<string, Record>, clock: nat) {
    && Creates(Rows(s), sessions, req.id, req.session, req.source, req.hash, req.key, req.timeout, result, rows)
    && if rows == Rows(s) then t == s
       else req.id in rows && t == s[req.id := Started(rows[req.id], clock)]
  }

  ghost predicate StartStep(s: System, t: System) {
    exists sessions, req, result, rows, clock :: Starts(s, t, sessions, req, result, rows, clock)
  }

  ghost predicate SystemStep(s: System, t: System) {
    || StartStep(s, t)
    || (exists id <- s :: id in t && Step(s[id], t[id]) && t == s[id := t[id]])
    || t == map id | id in s :: Crashed(s[id])
  }

  ghost predicate UniqueKeys(s: System) {
    forall a, b | a in s && b in s && s[a].world.rec.key.Some? && s[a].world.rec.key == s[b].world.rec.key :: a == b
  }

  ghost predicate SystemInv(s: System) {
    && (forall id <- s :: Inv(s[id]))
    && UniqueKeys(s)
  }

  lemma StartedInv(session: string, at: Identity, source: Bytes, hash: int, key: Option<string>, timeout: Option<nat>, clock: nat)
    ensures Inv(Started(NewRecord(session, at, source, hash, key, timeout), clock))
  {
    InitInv(Started(NewRecord(session, at, source, hash, key, timeout), clock));
  }

  lemma FreshKey(s: System, id: string, x: Exec)
    requires UniqueKeys(s)
    requires x.world.rec.key.Some? ==> forall k <- s :: s[k].world.rec.key != x.world.rec.key
    ensures UniqueKeys(s[id := x])
  {
  }

  lemma AddedInv(s: System, id: string, x: Exec)
    requires SystemInv(s) && Inv(x)
    requires x.world.rec.key.Some? ==> forall k <- s :: s[k].world.rec.key != x.world.rec.key
    ensures SystemInv(s[id := x])
  {
    FreshKey(s, id, x);
    var t := s[id := x];
    forall k <- t ensures Inv(t[k]) {
      assert t[k] == if k == id then x else s[k];
    }
  }

  /** Only a request that is given a new row adds an execution, and its key is free. */
  lemma StartsKeepsInv(s: System, t: System, sessions: map<string, Identity>, req: Request,
                       result: Result<string, StoreError>, rows: map<string, Record>, clock: nat)
    requires SystemInv(s) && Starts(s, t, sessions, req, result, rows, clock)
    ensures SystemInv(t)
  {
    if rows != Rows(s) {
      StartedInv(req.session, sessions[req.session], req.source, req.hash, req.key, req.timeout, clock);
      if req.key.Some? {
        forall k <- s ensures s[k].world.rec.key != req.key {
          assert Rows(s)[k] == s[k].world.rec;
        }
      }
      AddedInv(s, req.id, Started(rows[req.id], clock));
    }
  }

  lemma StartKeepsInv(s: System, t: System)
    requires SystemInv(s) && StartStep(s, t)
    ensures SystemInv(t)
  {
    var sessions, req, result, rows, clock :| Starts(s, t, sessions, req, result, rows, clock);
    StartsKeepsInv(s, t, sessions, req, result, rows, clock);
  }

  lemma MemberKeepsInv(s: System, t: System, id: string)
    requires SystemInv(s) && id in s && id in t && Step(s[id], t[id]) && t == s[id := t[id]]
    ensures SystemInv(t)
  {
    KeepsKey(s[id], t[id]);
    ReplacedInv(s, id, t[id]);
  }

  lemma ReplacedInv(s: System, id: string, x: Exec)
    requires SystemInv(s) && id in s && Inv(x) && x.world.rec.key == s[id].world.rec.key
    ensures SystemInv(s[id := x])
  {
    var t := s[id := x];
    forall k <- t ensures Inv(t[k]) {
      assert t[k] == if k == id then x else s[k];
    }
    SameKeys(s, id, x);
  }

  lemma SameKeys(s: System, id: string, x: Exec)
    requires UniqueKeys(s) && id in s && x.world.rec.key == s[id].world.rec.key
    ensures UniqueKeys(s[id := x])
  {
  }

  lemma KeepsKey(x: Exec, y: Exec)
    requires Inv(x) && Step(x, y)
    ensures Inv(y) && y.world.rec.key == x.world.rec.key
  {
    StepInv(x, y);
    StepGrows(x, y);
  }

  lemma CrashKeepsInv(s: System)
    requires SystemInv(s)
    ensures SystemInv(map id | id in s :: Crashed(s[id]))
  {
    forall id <- s ensures Inv(Crashed(s[id])) {
      assert Step(s[id], Crashed(s[id]));
      StepInv(s[id], Crashed(s[id]));
    }
  }

  lemma SystemStepInv(s: System, t: System)
    requires SystemInv(s) && SystemStep(s, t)
    ensures SystemInv(t)
  {
    if StartStep(s, t) {
      StartKeepsInv(s, t);
    } else if t == map id | id in s :: Crashed(s[id]) {
      CrashKeepsInv(s);
    } else {
      var id :| id in s && id in t && Step(s[id], t[id]) && t == s[id := t[id]];
      MemberKeepsInv(s, t, id);
    }
  }

  ghost predicate SystemStepAt(run: seq<System>, i: nat)
    requires 0 < i < |run|
  {
    SystemStep(run[i - 1], run[i])
  }

  ghost predicate IsSystemRun(run: seq<System>) {
    && run != [] && run[0] == map[]
    && forall i :: 0 < i < |run| ==> SystemStepAt(run, i)
  }

  lemma {:induction false} SystemRunInv(run: seq<System>, i: nat)
    requires IsSystemRun(run) && i < |run|
    ensures SystemInv(run[i])
  {
    if i > 0 {
      SystemRunInv(run, i - 1);
      assert SystemStepAt(run, i);
      SystemStepInv(run[i - 1], run[i]);
    }
  }

  /** The executions of a key that put their request on the wire. */
  function SendersOf(s: System, key: string): set<string> {
    set id | id in s && s[id].world.rec.key == Some(key) && Executes(s[id].world.wire) > 0
  }

  lemma AtMostOneElement(ids: set<string>)
    requires forall a, b | a in ids && b in ids :: a == b
    ensures |ids| <= 1
  {
    if ids != {} {
      var a :| a in ids;
      assert ids == {a};
    }
  }

  /** However often clients retry and the controller crashes: one request per execution id and per key. */
  lemma OneRequestPerKey(run: seq<System>, i: nat, id: string, key: string)
    requires IsSystemRun(run) && i < |run|
    ensures id in run[i] ==> Executes(run[i][id].world.wire) <= 1
    ensures |SendersOf(run[i], key)| <= 1
  {
    SystemRunInv(run, i);
    AtMostOneElement(SendersOf(run[i], key));
  }

  /** A retry is answered with the execution that already holds the key, or refused; it never queues another. */
  lemma RetryFindsHolder(run: seq<System>, i: nat, holder: string, t: System, sessions: map<string, Identity>, req: Request,
                         result: Result<string, StoreError>, rows: map<string, Record>, clock: nat)
    requires IsSystemRun(run) && i < |run| && holder in run[i]
    requires req.key.Some? && req.key == run[i][holder].world.rec.key
    requires req.timeout.Some? ==> req.timeout.value > 0
    requires Starts(run[i], t, sessions, req, result, rows, clock)
    ensures t == run[i]
    ensures result == if run[i][holder].world.rec.requestHash == req.hash then Ok(holder) else Err(IdempotencyConflict)
  {
    SystemRunInv(run, i);
    assert Rows(run[i])[holder] == run[i][holder].world.rec;
    assert forall k <- run[i] :: Rows(run[i])[k] == run[i][k].world.rec;
  }
}

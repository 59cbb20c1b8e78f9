/**
 Waiting for an execution (or a batch) in the controller. Clients check the stored state while
 they hold the topic's condition; a thread that commits a change then notifies, which schedules a
 task on the event loop, which takes the condition and wakes everybody.
 */
module Wakeup {
  import opened Wrappers

  /** Where a client's wait call is. In Checking and Arming it holds the condition's lock. */
  datatype Point = Entering | Checking | Arming | Blocked | Woken | Expired | Done(sawEnd: bool)

  /** A patient client gave no timeout. */
  datatype Client = Client(patient: bool, at: Point)

  /** A publish task; Publishing holds the lock. */
  datatype Task = Reading | Acquiring | Publishing | Ended

  datatype Holder = ByClient(i: nat) | ByTask(j: nat)

  /** `owed`: commits whose notification is still to come. `scheduled`: callbacks the loop has not run. */
  datatype State = State(ended: bool, owed: nat, scheduled: nat, tasks: seq<Task>, clients: seq<Client>, lock: Option<Holder>)

  const START := State(false, 0, 0, [], [], None)

  datatype Action =
    | Arrive(patient: bool)
    | Commit(ends: bool)
    | Notify
    | FailBeforeNotify
    | Spawn
    | Read(j: nat)
    | FailPublish(j: nat)
    | LockForTask(j: nat)
    | Publish(j: nat)
    | LockForClient(i: nat)
    | Check(i: nat)
    | GiveUp(i: nat)
    | Arm(i: nat)
    | Expire(i: nat)
    | Leave(i: nat)

  predicate TaskAt(s: State, j: nat, t: Task) {
    j < |s.tasks| && s.tasks[j] == t
  }

  predicate ClientAt(s: State, i: nat, p: Point) {
    i < |s.clients| && s.clients[i].at == p
  }

  predicate Impatient(s: State, i: nat) {
    i < |s.clients| && !s.clients[i].patient
  }

  predicate Enabled(s: State, a: Action) {
    match a
    case Arrive(_) => true
    case Commit(_) => true
    case Notify => s.owed > 0
    case FailBeforeNotify => s.owed > 0
    case Spawn => s.scheduled > 0
    case Read(j) => TaskAt(s, j, Reading)
    case FailPublish(j) => TaskAt(s, j, Reading)
    case LockForTask(j) => TaskAt(s, j, Acquiring) && s.lock.None?
    case Publish(j) => TaskAt(s, j, Publishing)
    case LockForClient(i) => (ClientAt(s, i, Entering) || ClientAt(s, i, Woken)) && s.lock.None?
    case Check(i) => ClientAt(s, i, Checking)
    case GiveUp(i) => ClientAt(s, i, Checking) && Impatient(s, i) && !s.ended
    case Arm(i) => ClientAt(s, i, Arming)
    case Expire(i) => (ClientAt(s, i, Blocked) || ClientAt(s, i, Woken)) && Impatient(s, i)
    case Leave(i) => ClientAt(s, i, Expired) && s.lock.None?
  }

  function Woke(c: Client): Client {
    if c.at == Blocked then c.(at := Woken) else c
  }

  function WakeAll(clients: seq<Client>): (woken: seq<Client>)
    ensures |woken| == |clients| && forall i :: 0 <= i < |clients| ==> woken[i] == Woke(clients[i])
  {
    if clients == [] then [] else [Woke(clients[0])] + WakeAll(clients[1..])
  }

  function MoveTask(s: State, j: nat, t: Task): State
    requires j < |s.tasks|
  {
    s.(tasks := s.tasks[j := t])
  }

  function MoveClient(s: State, i: nat, p: Point): State
    requires i < |s.clients|
  {
    s.(clients := s.clients[i := s.clients[i].(at := p)])
  }

  function Next(s: State, a: Action): State
    requires Enabled(s, a)
  {
    match a
    case Arrive(patient) => s.(clients := s.clients + [Client(patient, Entering)])
    case Commit(ends) => s.(ended := s.ended || ends, owed := s.owed + 1)
    case Notify => s.(owed := s.owed - 1, scheduled := s.scheduled + 1)
    case FailBeforeNotify => s.(owed := s.owed - 1)
    case Spawn => s.(scheduled := s.scheduled - 1, tasks := s.tasks + [Reading])
    case Read(j) => MoveTask(s, j, Acquiring)
    case FailPublish(j) => MoveTask(s, j, Ended)
    case LockForTask(j) => MoveTask(s, j, Publishing).(lock := Some(ByTask(j)))
    case Publish(j) => MoveTask(s, j, Ended).(clients := WakeAll(s.clients), lock := None)
    case LockForClient(i) => MoveClient(s, i, Checking).(lock := Some(ByClient(i)))
    case Check(i) => if s.ended then MoveClient(s, i, Done(true)).(lock := None) else MoveClient(s, i, Arming)
    case GiveUp(i) => MoveClient(s, i, Done(false)).(lock := None)
    case Arm(i) => MoveClient(s, i, Blocked).(lock := None)
    case Expire(i) => MoveClient(s, i, Expired)
    case Leave(i) => MoveClient(s, i, Done(false))
  }

  /** Any list of actions is a run; one that is not enabled changes nothing. */
  function After(actions: seq<Action>): State {
    if actions == [] then START
    else
      var s, a := After(actions[..|actions| - 1]), actions[|actions| - 1];
      if Enabled(s, a) then Next(s, a) else s
  }

  /** A thread that fails after its commit, or a publish task that fails while it reads the row. */
  predicate Fails(a: Action) {
    a.FailBeforeNotify? || a.FailPublish?
  }

  predicate Reliable(actions: seq<Action>) {
    forall a <- actions :: !Fails(a)
  }

  /** A notification is on its way. */
  predicate Pending(s: State) {
    s.owed > 0 || s.scheduled > 0 || exists j :: 0 <= j < |s.tasks| && s.tasks[j] != Ended
  }

  /** Committed to sleep. */
  predicate Sleeps(c: Client) {
    c.at == Arming || c.at == Blocked
  }

  predicate Holds(c: Client) {
    c.at == Checking || c.at == Arming
  }

  ghost predicate LockOk(s: State) {
    && (forall i :: 0 <= i < |s.clients| ==> (Holds(s.clients[i]) <==> s.lock == Some(ByClient(i))))
    && (forall j :: 0 <= j < |s.tasks| ==> (s.tasks[j] == Publishing <==> s.lock == Some(ByTask(j))))
    && match s.lock
       case None => true
       case Some(ByClient(i)) => i < |s.clients|
       case Some(ByTask(j)) => j < |s.tasks|
  }

  predicate ClientOk(c: Client, ended: bool) {
    && (c.at == Done(true) ==> ended)
    && (c.patient ==> c.at != Expired && c.at != Done(false))
  }

  /** What every run keeps, whatever fails. */
  ghost predicate Orderly(s: State) {
    LockOk(s) && forall c <- s.clients :: ClientOk(c, s.ended)
  }

  ghost predicate Inv(s: State) {
    && Orderly(s)
    && (s.ended && !Pending(s) ==> forall c <- s.clients :: !Sleeps(c))
  }

  lemma TaskStepKeepsInv(s: State, a: Action)
    requires Inv(s) && Enabled(s, a) && (a.Read? || a.LockForTask? || a.Publish? || a.Spawn?)
    ensures Inv(Next(s, a))
  {
    var t := Next(s, a);
    match a
    case Spawn => assert t.tasks[|s.tasks|] == Reading;
    case Read(j) => assert t.tasks[j] == Acquiring;
    case LockForTask(j) => assert t.tasks[j] == Publishing;
    case Publish(j) =>
      forall i | 0 <= i < |t.clients| ensures !Sleeps(t.clients[i]) && !Holds(t.clients[i]) && ClientOk(t.clients[i], t.ended) {
        assert s.clients[i] in s.clients;
      }
  }

  lemma PendingTasks(s: State, t: State)
    requires t.owed >= s.owed && t.scheduled == s.scheduled && t.tasks == s.tasks
    ensures Pending(s) ==> Pending(t)
  {
  }

  lemma ClientStepKeepsInv(s: State, a: Action)
    requires Inv(s) && Enabled(s, a)
    requires a.LockForClient? || a.Check? || a.GiveUp? || a.Arm? || a.Expire? || a.Leave?
    ensures Inv(Next(s, a))
  {
    var t := Next(s, a);
    PendingTasks(s, t);
    forall i | 0 <= i < |t.clients|
      ensures ClientOk(t.clients[i], t.ended) && (Sleeps(t.clients[i]) && t.ended ==> Pending(t))
    {
      assert s.clients[i] in s.clients;
    }
  }

  lemma CommitKeepsInv(s: State, a: Action)
    requires Inv(s) && Enabled(s, a) && (a.Arrive? || a.Commit? || a.Notify?)
    ensures Inv(Next(s, a))
  {
    var t := Next(s, a);
    if a.Arrive? {
      PendingTasks(s, t);
    }
    forall i | 0 <= i < |t.clients|
      ensures ClientOk(t.clients[i], t.ended) && (Sleeps(t.clients[i]) && t.ended ==> Pending(t))
    {
      assert i < |s.clients| ==> s.clients[i] in s.clients;
    }
  }

  lemma StepKeepsInv(s: State, a: Action)
    requires Inv(s) && Enabled(s, a) && !Fails(a)
    ensures Inv(Next(s, a))
  {
    if a.Read? || a.LockForTask? || a.Publish? || a.Spawn? {
      TaskStepKeepsInv(s, a);
    } else if a.Arrive? || a.Commit? || a.Notify? {
      CommitKeepsInv(s, a);
    } else {
      ClientStepKeepsInv(s, a);
    }
  }

  lemma {:induction false} RunKeepsInv(actions: seq<Action>)
    requires Reliable(actions)
    ensures Inv(After(actions))
  {
    if actions != [] {
      var n := |actions| - 1;
      assert actions[n] in actions;
      RunKeepsInv(actions[..n]);
      if Enabled(After(actions[..n]), actions[n]) {
        StepKeepsInv(After(actions[..n]), actions[n]);
      }
    }
  }

  /** No wakeup is lost: a client sleeps only while there is nothing to see or a notification is on its way. */
  lemma NoLostWakeup(actions: seq<Action>, i: nat)
    requires Reliable(actions) && ClientAt(After(actions), i, Blocked)
    ensures !After(actions).ended || Pending(After(actions))
  {
    RunKeepsInv(actions);
    assert After(actions).clients[i] in After(actions).clients;
  }

  // ---------------------------------------------------------------- every wait returns

  /** Steps the controller takes by itself. */
  predicate Internal(a: Action) {
    !a.Arrive? && !a.Commit? && !a.FailBeforeNotify?
  }

  function PointWeight(c: Client): nat {
    match c.at
    case Arming => 6
    case Blocked => 5
    case Woken => 4
    case Entering => 4
    case Checking => 3
    case Expired => 1
    case Done(_) => 0
  }

  function TaskWeight(t: Task): nat {
    match t
    case Reading => 3
    case Acquiring => 2
    case Publishing => 1
    case Ended => 0
  }

  function ClientsWeight(cs: seq<Client>): nat {
    if cs == [] then 0 else PointWeight(cs[0]) + ClientsWeight(cs[1..])
  }

  function TasksWeight(ts: seq<Task>): nat {
    if ts == [] then 0 else TaskWeight(ts[0]) + TasksWeight(ts[1..])
  }

  function Distance(s: State): nat {
    5 * s.owed + 4 * s.scheduled + TasksWeight(s.tasks) + ClientsWeight(s.clients)
  }

  lemma {:induction false} MovedClient(cs: seq<Client>, i: nat, c: Client)
    requires i < |cs|
    ensures ClientsWeight(cs[i := c]) == ClientsWeight(cs) - PointWeight(cs[i]) + PointWeight(c)
  {
    if i == 0 {
      assert cs[i := c][1..] == cs[1..];
    } else {
      assert cs[i := c][1..] == cs[1..][i - 1 := c];
      MovedClient(cs[1..], i - 1, c);
    }
  }

  lemma {:induction false} MovedTask(ts: seq<Task>, j: nat, t: Task)
    requires j < |ts|
    ensures TasksWeight(ts[j := t]) == TasksWeight(ts) - TaskWeight(ts[j]) + TaskWeight(t)
  {
    if j == 0 {
      assert ts[j := t][1..] == ts[1..];
    } else {
      assert ts[j := t][1..] == ts[1..][j - 1 := t];
      MovedTask(ts[1..], j - 1, t);
    }
  }

  lemma {:induction false} NewTask(ts: seq<Task>)
    ensures TasksWeight(ts + [Reading]) == TasksWeight(ts) + 3
  {
    if ts != [] {
      assert (ts + [Reading])[1..] == ts[1..] + [Reading];
      NewTask(ts[1..]);
    } else {
      assert ([] + [Reading])[1..] == [];
      assert ts + [Reading] == [Reading];
      assert [Reading][1..] == [];
    }
  }

  lemma {:induction false} WakingIsLighter(cs: seq<Client>)
    ensures ClientsWeight(WakeAll(cs)) <= ClientsWeight(cs)
  {
    if cs != [] {
      WakingIsLighter(cs[1..]);
      assert WakeAll(cs)[1..] == WakeAll(cs[1..]);
    }
  }

  predicate MovesNotification(a: Action) {
    a.Notify? || a.Spawn? || a.Read? || a.FailPublish? || a.LockForTask? || a.Publish?
  }

  /** Once the execution has ended, every internal step brings all waits closer to their return. */
  lemma InternalStepIsCloser(s: State, a: Action)
    requires s.ended && Enabled(s, a) && Internal(a)
    ensures Distance(Next(s, a)) < Distance(s) && Next(s, a).ended
  {
    if MovesNotification(a) {
      NotificationIsCloser(s, a);
    } else {
      ClientIsCloser(s, a);
    }
  }

  lemma NotificationIsCloser(s: State, a: Action)
    requires s.ended && Enabled(s, a) && MovesNotification(a)
    ensures Distance(Next(s, a)) < Distance(s) && Next(s, a).ended
  {
    match a
    case Notify =>
    case Spawn => NewTask(s.tasks);
    case Read(j) => MovedTask(s.tasks, j, Acquiring);
    case FailPublish(j) => MovedTask(s.tasks, j, Ended);
    case LockForTask(j) => MovedTask(s.tasks, j, Publishing);
    case Publish(j) =>
      MovedTask(s.tasks, j, Ended);
      WakingIsLighter(s.clients);
  }

  lemma ClientIsCloser(s: State, a: Action)
    requires s.ended && Enabled(s, a)
    requires a.LockForClient? || a.Check? || a.GiveUp? || a.Arm? || a.Expire? || a.Leave?
    ensures Distance(Next(s, a)) < Distance(s) && Next(s, a).ended
  {
    match a
    case LockForClient(i) => MovedClient(s.clients, i, s.clients[i].(at := Checking));
    case Check(i) => MovedClient(s.clients, i, s.clients[i].(at := Done(true)));
    case GiveUp(i) =>
    case Arm(i) => MovedClient(s.clients, i, s.clients[i].(at := Blocked));
    case Expire(i) => MovedClient(s.clients, i, s.clients[i].(at := Expired));
    case Leave(i) => MovedClient(s.clients, i, s.clients[i].(at := Done(false)));
  }

  predicate AllDone(s: State) {
    forall c <- s.clients :: c.at.Done?
  }

  /** No deadlock: while a wait has not returned some internal step is possible. */
  lemma SomeStep(s: State) returns (a: Action)
    requires Inv(s) && s.ended && !AllDone(s)
    ensures Internal(a) && Enabled(s, a) && !Fails(a)
  {
    match s.lock
    case Some(ByTask(j)) => a := Publish(j);
    case Some(ByClient(i)) => a := if s.clients[i].at == Checking then Check(i) else Arm(i);
    case None =>
      if s.owed > 0 {
        a := Notify;
      } else if s.scheduled > 0 {
        a := Spawn;
      } else if j :| 0 <= j < |s.tasks| && s.tasks[j] != Ended {
        a := if s.tasks[j] == Reading then Read(j) else LockForTask(j);
      } else {
        var i :| 0 <= i < |s.clients| && !s.clients[i].at.Done?;
        assert s.clients[i] in s.clients;
        assert !Holds(s.clients[i]) && !Sleeps(s.clients[i]);
        a := if s.clients[i].at == Expired then Leave(i) else LockForClient(i);
      }
  }

  /** Internal actions, each enabled where it is taken. */
  predicate InternalRun(s: State, actions: seq<Action>)
    decreases |actions|
  {
    actions == [] || (Internal(actions[0]) && Enabled(s, actions[0]) && InternalRun(Next(s, actions[0]), actions[1..]))
  }

  function EndOf(s: State, actions: seq<Action>): State
    requires InternalRun(s, actions)
    decreases |actions|
  {
    if actions == [] then s else EndOf(Next(s, actions[0]), actions[1..])
  }

  ghost predicate Stuck(s: State) {
    forall a: Action :: Internal(a) ==> !Enabled(s, a)
  }

  /**
   After the end has been committed, however the loop schedules its work, it comes to rest after
   boundedly many steps, and then, if no publish task failed, every wait has returned; one without a
   timeout saw the end.
   */
  lemma {:induction false} EveryWaitReturns(s: State, actions: seq<Action>)
    requires Inv(s) && s.ended && InternalRun(s, actions) && Reliable(actions)
    ensures |actions| <= Distance(s)
    ensures Stuck(EndOf(s, actions)) ==>
              forall c <- EndOf(s, actions).clients :: c.at.Done? && (c.patient ==> c.at == Done(true))
    decreases |actions|
  {
    if actions == [] {
      if !AllDone(s) {
        var a := SomeStep(s);
        assert !Stuck(s);
      }
    } else {
      assert actions[0] in actions && forall a <- actions[1..] :: a in actions;
      InternalStepIsCloser(s, actions[0]);
      StepKeepsInv(s, actions[0]);
      EveryWaitReturns(Next(s, actions[0]), actions[1..]);
    }
  }

  /** A sleeping client without a timeout is only ever woken by a notification. */
  lemma {:induction false} SleepsOn(s: State, i: nat, actions: seq<Action>)
    requires !Pending(s) && ClientAt(s, i, Blocked) && !Impatient(s, i) && InternalRun(s, actions)
    ensures ClientAt(EndOf(s, actions), i, Blocked) && EndOf(s, actions).ended == s.ended
    decreases |actions|
  {
    if actions != [] {
      var t := Next(s, actions[0]);
      assert t.tasks == s.tasks && t.owed == s.owed && t.scheduled == s.scheduled;
      SleepsOn(t, i, actions[1..]);
    }
  }

  /**
   A thread that fails after committing the end and before notifying leaves every client that is
   asleep without a timeout asleep, whatever the controller then does by itself.
   */
  lemma FailureLosesWakeup(s: State, i: nat, actions: seq<Action>)
    requires !Pending(s) && ClientAt(s, i, Blocked) && !Impatient(s, i)
    requires InternalRun(Next(Next(s, Commit(true)), FailBeforeNotify), actions)
    ensures var end := EndOf(Next(Next(s, Commit(true)), FailBeforeNotify), actions);
            end.ended && ClientAt(end, i, Blocked)
  {
    SleepsOn(Next(Next(s, Commit(true)), FailBeforeNotify), i, actions);
  }

  /** So does a publish task that fails while it reads the row, although the thread did notify. */
  lemma PublishFailureLosesWakeup(s: State, i: nat, j: nat, actions: seq<Action>)
    requires s.owed == 0 && s.scheduled == 0 && TaskAt(s, j, Reading)
    requires forall k :: 0 <= k < |s.tasks| && k != j ==> s.tasks[k] == Ended
    requires ClientAt(s, i, Blocked) && !Impatient(s, i)
    requires InternalRun(Next(s, FailPublish(j)), actions)
    ensures var end := EndOf(Next(s, FailPublish(j)), actions);
            end.ended == s.ended && ClientAt(end, i, Blocked)
  {
    SleepsOn(Next(s, FailPublish(j)), i, actions);
  }

  lemma StepKeepsOrder(s: State, a: Action)
    requires Orderly(s) && Enabled(s, a)
    ensures Orderly(Next(s, a))
  {
    var t := Next(s, a);
    forall k | 0 <= k < |t.clients| ensures ClientOk(t.clients[k], t.ended) {
      assert k < |s.clients| ==> s.clients[k] in s.clients;
    }
  }

  lemma {:induction false} RunKeepsOrder(actions: seq<Action>)
    ensures Orderly(After(actions))
  {
    if actions != [] {
      var n := |actions| - 1;
      RunKeepsOrder(actions[..n]);
      if Enabled(After(actions[..n]), actions[n]) {
        StepKeepsOrder(After(actions[..n]), actions[n]);
      }
    }
  }

  /** While nothing fails, everybody can be brought home. */
  lemma {:induction false} BringHome(s: State) returns (more: seq<Action>)
    requires Inv(s) && s.ended
    ensures InternalRun(s, more) && Reliable(more) && AllDone(EndOf(s, more)) && |EndOf(s, more).clients| == |s.clients|
    decreases Distance(s)
  {
    if AllDone(s) {
      return [];
    }
    var a := SomeStep(s);
    InternalStepIsCloser(s, a);
    StepKeepsInv(s, a);
    var later := BringHome(Next(s, a));
    more := [a] + later;
    assert more[1..] == later;
  }

  /**
   The exact condition, in every run, failures included: after the end, a client that sleeps without
   a timeout can still be woken by what the controller does by itself if and only if a notification
   is on its way.
   */
  lemma WokenIffPending(actions: seq<Action>, i: nat)
    requires After(actions).ended && ClientAt(After(actions), i, Blocked) && !Impatient(After(actions), i)
    ensures (exists more :: InternalRun(After(actions), more) && Reliable(more) && !ClientAt(EndOf(After(actions), more), i, Blocked))
            <==> Pending(After(actions))
  {
    var s := After(actions);
    RunKeepsOrder(actions);
    if Pending(s) {
      var more := BringHome(s);
      assert EndOf(s, more).clients[i] in EndOf(s, more).clients;
    } else {
      forall more | InternalRun(s, more) ensures ClientAt(EndOf(s, more), i, Blocked) {
        SleepsOn(s, i, more);
      }
    }
  }

  const ASLEEP := [Arrive(true), LockForClient(0), Check(0), Arm(0)]

  lemma SleeperIsReachable()
    ensures After(ASLEEP) == State(false, 0, 0, [], [Client(true, Blocked)], None)
  {
    CheckedIsReachable();
    AfterMore([Arrive(true), LockForClient(0), Check(0)], Arm(0));
    assert [Arrive(true), LockForClient(0), Check(0)] + [Arm(0)] == ASLEEP;
  }

  lemma CheckedIsReachable()
    ensures After([Arrive(true), LockForClient(0), Check(0)]) == State(false, 0, 0, [], [Client(true, Arming)], Some(ByClient(0)))
  {
    AfterMore([], Arrive(true));
    assert [] + [Arrive(true)] == [Arrive(true)];
    AfterMore([Arrive(true)], LockForClient(0));
    assert [Arrive(true)] + [LockForClient(0)] == [Arrive(true), LockForClient(0)];
    AfterMore([Arrive(true), LockForClient(0)], Check(0));
    assert [Arrive(true), LockForClient(0)] + [Check(0)] == [Arrive(true), LockForClient(0), Check(0)];
  }

  /** Both losses happen in runs from the start. */
  lemma LossesAreReachable()
    ensures var s := After(ASLEEP + [Commit(true)] + [FailBeforeNotify]);
            s.ended && ClientAt(s, 0, Blocked) && !Impatient(s, 0) && !Pending(s)
    ensures var s := After(ASLEEP + [Commit(true)] + [Notify] + [Spawn] + [FailPublish(0)]);
            s.ended && ClientAt(s, 0, Blocked) && !Impatient(s, 0) && !Pending(s)
  {
    SleeperIsReachable();
    AfterMore(ASLEEP, Commit(true));
    AfterMore(ASLEEP + [Commit(true)], FailBeforeNotify);
    AfterMore(ASLEEP + [Commit(true)], Notify);
    AfterMore(ASLEEP + [Commit(true)] + [Notify], Spawn);
    AfterMore(ASLEEP + [Commit(true)] + [Notify] + [Spawn], FailPublish(0));
  }

  lemma AfterMore(actions: seq<Action>, a: Action)
    ensures After(actions + [a]) == if Enabled(After(actions), a) then Next(After(actions), a) else After(actions)
  {
    assert (actions + [a])[..|actions|] == actions;
  }
}

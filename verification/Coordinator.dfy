/**
 The coordinator hands each session's work to one worker thread, in order, and never has the same
 execution scheduled twice. This is why the machine of KernelWorker gives an execution one worker.
 */
module Coordinator {
  import opened Wrappers

  /** An entry of a worker's queue; Stop is what closing the worker puts there. */
  datatype Item = Work(key: string) | Stop

  /**
   One worker object: its queue, what it is working on, and whether its thread has returned. For
   the record, the keys it was ever given and those it has taken.
   */
  datatype Desk = Desk(queue: seq<Item>, hand: Option<string>, gone: bool, given: seq<string>, taken: seq<string>)

  const NEW_DESK := Desk([], None, false, [], [])

  /** Worker objects outlive the coordinator's table of them; `desks` has all of them. */
  datatype Pool = Pool(scheduled: set<string>, pending: int, desks: map<string, Desk>, closed: bool)

  const EMPTY := Pool({}, 0, map[], false)

  function Keys(queue: seq<Item>): seq<string> {
    if queue == [] then []
    else (if queue[0].Work? then [queue[0].key] else []) + Keys(queue[1..])
  }

  /** The section of submit, recover and submit_batch under the lock. */
  function Scheduled(p: Pool, session: string, key: string): Pool
    requires session in p.desks
  {
    if key in p.scheduled then p
    else
      var d := p.desks[session];
      p.(scheduled := p.scheduled + {key}, pending := p.pending + 1,
         desks := p.desks[session := d.(queue := d.queue + [Work(key)], given := d.given + [key])])
  }

  class ExecutionCoordinator {
    var scheduled: set<string>
    var pending: int
    var desks: map<string, Desk>
    var closed: bool

    constructor ()
      ensures Value() == EMPTY
    {
      scheduled, pending, desks, closed := {}, 0, map[], false;
    }

    function Value(): Pool
      reads this
    {
      Pool(scheduled, pending, desks, closed)
    }

    /** _worker(create=True); false where it raises. */
    method OpenWorker(session: string) returns (ok: bool)
      modifies this`desks
      ensures ok == !closed
      ensures Value() == if ok then Opened(old(Value()), session) else old(Value())
    {
      if closed {
        return false;
      }
      if session !in desks {
        desks := desks[session := NEW_DESK];
      }
      return true;
    }

    method Schedule(session: string, key: string)
      requires session in desks
      modifies this
      ensures Value() == Scheduled(old(Value()), session, key)
    {
      if key in scheduled {
        return;
      }
      pending := pending + 1;
      scheduled := scheduled + {key};
      var desk := desks[session];
      desks := desks[session := desk.(queue := desk.queue + [Work(key)], given := desk.given + [key])];
    }

    /** _completed, called by the worker that had the key in hand. */
    method Completed(session: string)
      requires session in desks && desks[session].hand.Some?
      modifies this
      ensures Value() == Finished(old(Value()), session)
    {
      var key := desks[session].hand.value;
      desks := desks[session := desks[session].(hand := None)];
      pending := pending - 1;
      scheduled := scheduled - {key};
    }
  }

  function Opened(p: Pool, session: string): Pool {
    if session in p.desks then p else p.(desks := p.desks[session := NEW_DESK])
  }

  function Finished(p: Pool, session: string): Pool
    requires session in p.desks && p.desks[session].hand.Some?
  {
    var d := p.desks[session];
    p.(scheduled := p.scheduled - {d.hand.value}, pending := p.pending - 1, desks := p.desks[session := d.(hand := None)])
  }

  /** The worker thread gets the next item. */
  function Next(d: Desk): Desk
    requires d.queue != []
  {
    match d.queue[0]
    case Work(key) => d.(queue := d.queue[1..], hand := Some(key), taken := d.taken + [key])
    case Stop => d.(queue := d.queue[1..], gone := true)
  }

  // ---------------------------------------------------------------- all interleavings

  /** The separate critical sections of the coordinator, and the steps of the worker threads. */
  datatype Action =
    | Open(session: string)
    | Submit(key: string)
    | Take(session: string)
    | Complete(session: string)
    | Die(session: string)
    | Close
    | CloseWorker(session: string)

  predicate Enabled(p: Pool, a: Action, home: string -> string) {
    match a
    case Open(_) => !p.closed
    case Submit(key) => home(key) in p.desks
    case Take(s) => s in p.desks && p.desks[s].hand.None? && !p.desks[s].gone && p.desks[s].queue != []
    case Complete(s) => s in p.desks && p.desks[s].hand.Some?
    case Die(s) => s in p.desks && p.desks[s].hand.Some?
    case Close => true
    case CloseWorker(s) => p.closed && s in p.desks
  }

  /** home gives the session of a key; it is stored with the execution and never changes. */
  function Done(p: Pool, a: Action, home: string -> string): Pool
    requires Enabled(p, a, home)
  {
    match a
    case Open(s) => Opened(p, s)
    case Submit(key) => Scheduled(p, home(key), key)
    case Take(s) => p.(desks := p.desks[s := Next(p.desks[s])])
    case Complete(s) => Finished(p, s)
    // an exception escapes a failure handler: the key is completed and the thread ends
    case Die(s) =>
      var q := Finished(p, s);
      q.(desks := q.desks[s := q.desks[s].(gone := true)])
    case Close => p.(closed := true)
    case CloseWorker(s) => p.(desks := p.desks[s := p.desks[s].(queue := p.desks[s].queue + [Stop])])
  }

  /** Any list of actions is a run; one that is not enabled changes nothing. */
  function After(actions: seq<Action>, home: string -> string): Pool {
    if actions == [] then EMPTY
    else
      var p, a := After(actions[..|actions| - 1], home), actions[|actions| - 1];
      if Enabled(p, a, home) then Done(p, a, home) else p
  }

  /** What a worker has or will get. */
  function Load(d: Desk): seq<string> {
    (if d.hand.Some? then [d.hand.value] else []) + Keys(d.queue)
  }

  predicate DeskOk(d: Desk) {
    Distinct(Load(d)) && d.given == d.taken + Keys(d.queue) && (d.gone ==> d.hand.None?)
  }

  predicate Holds(p: Pool, session: string, key: string) {
    session in p.desks && key in Load(p.desks[session])
  }

  /** A key is scheduled exactly while its session's worker, and no other, has it once. */
  ghost predicate Inv(p: Pool, home: string -> string) {
    && p.pending == |p.scheduled|
    && (forall s <- p.desks :: DeskOk(p.desks[s]))
    && (forall key :: key in p.scheduled ==> Holds(p, home(key), key))
    && (forall s, key :: Holds(p, s, key) ==> key in p.scheduled && home(key) == s)
  }

  lemma {:induction false} KeysAppend(queue: seq<Item>, item: Item)
    ensures Keys(queue + [item]) == Keys(queue) + if item.Work? then [item.key] else []
  {
    if queue == [] {
      assert [] + [item] == [item] && [item][1..] == [];
    } else {
      assert (queue + [item])[1..] == queue[1..] + [item];
      KeysAppend(queue[1..], item);
    }
  }

  lemma GivenDesk(d: Desk, key: string)
    requires DeskOk(d) && key !in Load(d)
    ensures var e := d.(queue := d.queue + [Work(key)], given := d.given + [key]); DeskOk(e) && Load(e) == Load(d) + [key]
  {
    KeysAppend(d.queue, Work(key));
    var e := d.(queue := d.queue + [Work(key)], given := d.given + [key]);
    assert Load(e) == Load(d) + [key];
  }

  lemma TakenDesk(d: Desk)
    requires DeskOk(d) && d.hand.None? && !d.gone && d.queue != []
    ensures DeskOk(Next(d)) && Load(Next(d)) == Load(d)
  {
    var e := Next(d);
    assert Keys(d.queue) == (if d.queue[0].Work? then [d.queue[0].key] else []) + Keys(e.queue);
    assert Load(e) == Load(d);
    assert d.taken + Keys(d.queue) == e.taken + Keys(e.queue);
  }

  lemma ClearedDesk(d: Desk)
    requires DeskOk(d) && d.hand.Some?
    ensures var e := d.(hand := None); DeskOk(e) && Load(d) == [d.hand.value] + Load(e) && d.hand.value !in Load(e)
  {
    var e := d.(hand := None);
    assert Load(d) == [d.hand.value] + Load(e);
    assert Load(d)[0] == d.hand.value;
    forall i | 0 <= i < |Load(e)| ensures Load(e)[i] != d.hand.value {
      assert Load(e)[i] == Load(d)[i + 1];
    }
    forall i, j | 0 <= i < j < |Load(e)| ensures Load(e)[i] != Load(e)[j] {
      assert Load(e)[i] == Load(d)[i + 1] && Load(e)[j] == Load(d)[j + 1];
    }
  }

  /** One desk changed, and the schedule with it. */
  lemma DeskKeepsInv(p: Pool, q: Pool, home: string -> string, s: string)
    requires Inv(p, home) && s in p.desks && s in q.desks && q.desks == p.desks[s := q.desks[s]]
    requires DeskOk(q.desks[s]) && q.pending == |q.scheduled|
    requires forall k <- Load(q.desks[s]) :: home(k) == s
    requires forall k :: k in q.scheduled <==> if home(k) == s then k in Load(q.desks[s]) else k in p.scheduled
    ensures Inv(q, home)
  {
    forall t, k ensures Holds(q, t, k) <==> if t == s then k in Load(q.desks[s]) else Holds(p, t, k) {
    }
  }

  lemma LoadIsHome(p: Pool, home: string -> string, s: string)
    requires Inv(p, home) && s in p.desks
    ensures forall k :: k in Load(p.desks[s]) <==> k in p.scheduled && home(k) == s
  {
    forall k ensures k in Load(p.desks[s]) <==> k in p.scheduled && home(k) == s {
      assert k in Load(p.desks[s]) ==> Holds(p, s, k);
      assert k in p.scheduled ==> Holds(p, home(k), k);
    }
  }

  lemma SubmitKeepsInv(p: Pool, home: string -> string, key: string)
    requires Inv(p, home) && home(key) in p.desks
    ensures Inv(Scheduled(p, home(key), key), home)
  {
    if key !in p.scheduled {
      LoadIsHome(p, home, home(key));
      GivenDesk(p.desks[home(key)], key);
      DeskKeepsInv(p, Scheduled(p, home(key), key), home, home(key));
    }
  }

  lemma TakeKeepsInv(p: Pool, home: string -> string, s: string)
    requires Inv(p, home) && Enabled(p, Take(s), home)
    ensures Inv(Done(p, Take(s), home), home)
  {
    LoadIsHome(p, home, s);
    TakenDesk(p.desks[s]);
    DeskKeepsInv(p, Done(p, Take(s), home), home, s);
  }

  lemma CompleteKeepsInv(p: Pool, home: string -> string, s: string)
    requires Inv(p, home) && Enabled(p, Complete(s), home)
    ensures Inv(Done(p, Complete(s), home), home)
  {
    LoadIsHome(p, home, s);
    ClearedDesk(p.desks[s]);
    DeskKeepsInv(p, Done(p, Complete(s), home), home, s);
  }

  lemma DieKeepsInv(p: Pool, home: string -> string, s: string)
    requires Inv(p, home) && Enabled(p, Die(s), home)
    ensures Inv(Done(p, Die(s), home), home)
  {
    CompleteKeepsInv(p, home, s);
    GoneKeepsInv(Finished(p, s), home, s);
  }

  lemma GoneKeepsInv(p: Pool, home: string -> string, s: string)
    requires Inv(p, home) && s in p.desks && p.desks[s].hand.None?
    ensures Inv(p.(desks := p.desks[s := p.desks[s].(gone := true)]), home)
  {
    LoadIsHome(p, home, s);
    var q := p.(desks := p.desks[s := p.desks[s].(gone := true)]);
    assert Load(q.desks[s]) == Load(p.desks[s]);
    DeskKeepsInv(p, q, home, s);
  }

  lemma CloseWorkerKeepsInv(p: Pool, home: string -> string, s: string)
    requires Inv(p, home) && Enabled(p, CloseWorker(s), home)
    ensures Inv(Done(p, CloseWorker(s), home), home)
  {
    KeysAppend(p.desks[s].queue, Stop);
    LoadIsHome(p, home, s);
    assert Load(Done(p, CloseWorker(s), home).desks[s]) == Load(p.desks[s]);
    DeskKeepsInv(p, Done(p, CloseWorker(s), home), home, s);
  }

  lemma OpenKeepsInv(p: Pool, home: string -> string, s: string)
    requires Inv(p, home)
    ensures Inv(Opened(p, s), home)
  {
    forall t, k ensures Holds(Opened(p, s), t, k) <==> Holds(p, t, k) {
    }
  }

  lemma StepKeepsInv(p: Pool, a: Action, home: string -> string)
    requires Inv(p, home) && Enabled(p, a, home)
    ensures Inv(Done(p, a, home), home)
  {
    match a
    case Open(s) => OpenKeepsInv(p, home, s);
    case Submit(key) => SubmitKeepsInv(p, home, key);
    case Take(s) => TakeKeepsInv(p, home, s);
    case Complete(s) => CompleteKeepsInv(p, home, s);
    case Die(s) => DieKeepsInv(p, home, s);
    case Close =>
      forall t, k ensures Holds(Done(p, a, home), t, k) <==> Holds(p, t, k) {
      }
    case CloseWorker(s) => CloseWorkerKeepsInv(p, home, s);
  }

  lemma {:induction false} RunKeepsInv(actions: seq<Action>, home: string -> string)
    ensures Inv(After(actions, home), home)
  {
    if actions != [] {
      var n := |actions| - 1;
      RunKeepsInv(actions[..n], home);
      if Enabled(After(actions[..n], home), actions[n], home) {
        StepKeepsInv(After(actions[..n], home), actions[n], home);
      }
    }
  }

  /** At no time do two workers work on the same execution, nor is it queued while it is worked on. */
  lemma OneActivity(actions: seq<Action>, home: string -> string, s: string, t: string, key: string)
    requires var desks := After(actions, home).desks;
             s in desks && t in desks && desks[s].hand == Some(key) && key in Load(desks[t])
    ensures s == t && key !in Keys(After(actions, home).desks[s].queue)
  {
    RunKeepsInv(actions, home);
    var p := After(actions, home);
    assert Load(p.desks[s])[0] == key;
    assert Holds(p, s, key) && Holds(p, t, key);
    var load := Load(p.desks[s]);
    assert load == [key] + Keys(p.desks[s].queue);
    assert forall i :: 0 <= i < |Keys(p.desks[s].queue)| ==> Keys(p.desks[s].queue)[i] == load[i + 1];
  }

  /** Each session's work is taken in the order in which it was scheduled. */
  lemma TakenInOrder(actions: seq<Action>, home: string -> string, s: string)
    requires s in After(actions, home).desks
    ensures After(actions, home).desks[s].taken <= After(actions, home).desks[s].given
  {
    RunKeepsInv(actions, home);
  }

  /** wait_idle returns, that is, pending is zero, exactly when no worker has anything to do. */
  lemma IdleMeansIdle(actions: seq<Action>, home: string -> string)
    ensures var p := After(actions, home); p.pending == 0 <==> forall s <- p.desks :: Load(p.desks[s]) == []
  {
    RunKeepsInv(actions, home);
    var p := After(actions, home);
    if p.pending == 0 {
      forall s <- p.desks ensures Load(p.desks[s]) == [] {
        var load := Load(p.desks[s]);
        assert load != [] ==> Holds(p, s, load[0]);
      }
    } else {
      var key :| key in p.scheduled;
      assert Holds(p, home(key), key);
      assert Load(p.desks[home(key)]) != [];
    }
  }

  // ---------------------------------------------------------------- what is served

  function Onward(p: Pool, home: string -> string, more: seq<Action>): Pool
    decreases |more|
  {
    if more == [] then p
    else Onward(if Enabled(p, more[0], home) then Done(p, more[0], home) else p, home, more[1..])
  }

  /** The work queued ahead of a Stop. */
  function KeysBefore(queue: seq<Item>): seq<string> {
    if queue == [] || queue[0].Stop? then [] else [queue[0].key] + KeysBefore(queue[1..])
  }

  /** In hand, or queued ahead of any Stop on a thread that has not returned. */
  predicate Servable(d: Desk, key: string) {
    d.hand == Some(key) || (!d.gone && key in KeysBefore(d.queue))
  }

  lemma {:induction false} KeysBeforeAppend(queue: seq<Item>, item: Item, key: string)
    ensures key in KeysBefore(queue) ==> key in KeysBefore(queue + [item])
    ensures key in KeysBefore(queue + [item]) ==> key in KeysBefore(queue) || item == Work(key)
  {
    if queue == [] {
      assert [] + [item] == [item] && [item][1..] == [];
    } else {
      assert (queue + [item])[1..] == queue[1..] + [item];
      KeysBeforeAppend(queue[1..], item, key);
    }
  }

  lemma {:induction false} KeysBeforeAreKeys(queue: seq<Item>, key: string)
    requires key in KeysBefore(queue)
    ensures key in Keys(queue)
  {
    if queue[0] != Work(key) {
      KeysBeforeAreKeys(queue[1..], key);
    }
  }

  /** What cannot be served is never served, whatever anybody does. */
  lemma StuckStays(p: Pool, home: string -> string, key: string, a: Action)
    requires Inv(p, home) && key in p.scheduled && Enabled(p, a, home)
    requires !Servable(p.desks[home(key)], key)
    ensures var q := Done(p, a, home);
            key in q.scheduled && home(key) in q.desks && !Servable(q.desks[home(key)], key)
  {
    assert Holds(p, home(key), key);
    match a
    case Submit(k) => KeysBeforeAppend(p.desks[home(key)].queue, Work(k), key);
    case CloseWorker(_) => KeysBeforeAppend(p.desks[home(key)].queue, Stop, key);
    case Complete(s) => assert Holds(p, s, p.desks[s].hand.value) by { assert Load(p.desks[s])[0] == p.desks[s].hand.value; }
    case Die(s) => assert Holds(p, s, p.desks[s].hand.value) by { assert Load(p.desks[s])[0] == p.desks[s].hand.value; }
    case _ =>
  }

  lemma {:induction false} NeverServed(p: Pool, home: string -> string, key: string, more: seq<Action>)
    requires Inv(p, home) && key in p.scheduled && home(key) in p.desks && !Servable(p.desks[home(key)], key)
    ensures key in Onward(p, home, more).scheduled && Onward(p, home, more).pending > 0
    decreases |more|
  {
    if more == [] {
      assert p.scheduled != {};
    } else if Enabled(p, more[0], home) {
      StuckStays(p, home, key, more[0]);
      StepKeepsInv(p, more[0], home);
      NeverServed(Done(p, more[0], home), home, key, more[1..]);
    } else {
      NeverServed(p, home, key, more[1..]);
    }
  }

  /** Everything scheduled can be served. */
  ghost predicate AllServable(p: Pool, home: string -> string) {
    forall k <- p.scheduled :: home(k) in p.desks && Servable(p.desks[home(k)], k)
  }

  /** What the worker of a session does next. */
  function NextStep(p: Pool, s: string): Action
    requires s in p.desks
  {
    if p.desks[s].hand.Some? then Complete(s) else Take(s)
  }

  /** One step of the worker that has the key brings the key closer and costs no other key its turn. */
  lemma WorkerServes(p: Pool, home: string -> string, key: string)
    requires Inv(p, home) && key in p.scheduled && home(key) in p.desks && Servable(p.desks[home(key)], key)
    ensures var s := home(key);
            && Enabled(p, NextStep(p, s), home)
            && var q := Done(p, NextStep(p, s), home);
               && Inv(q, home) && s in q.desks && q.scheduled <= p.scheduled
               && (key in q.scheduled ==> Servable(q.desks[s], key) && Distance(q.desks[s]) < Distance(p.desks[s]))
               && (AllServable(p, home) ==> AllServable(q, home))
  {
    var s := home(key);
    StepKeepsInv(p, NextStep(p, s), home);
    if p.desks[s].hand.Some? {
      CompletionServes(p, home, s);
    } else {
      TakingServes(p, home, s);
    }
  }

  lemma CompletionServes(p: Pool, home: string -> string, s: string)
    requires Enabled(p, Complete(s), home)
    ensures forall k | k in Finished(p, s).scheduled && home(k) in p.desks && Servable(p.desks[home(k)], k) ::
              home(k) in Finished(p, s).desks && Servable(Finished(p, s).desks[home(k)], k)
  {
  }

  lemma TakingServes(p: Pool, home: string -> string, s: string)
    requires Enabled(p, Take(s), home) && p.desks[s].queue[0].Work?
    ensures forall k | home(k) in p.desks && Servable(p.desks[home(k)], k) ::
              home(k) in Done(p, Take(s), home).desks && Servable(Done(p, Take(s), home).desks[home(k)], k)
  {
  }

  /** How much is ahead of the end of a queue. */
  function Distance(d: Desk): nat {
    2 * |d.queue| + if d.hand.Some? then 1 else 0
  }

  lemma {:induction false} ServeKey(p: Pool, home: string -> string, key: string) returns (more: seq<Action>)
    requires Inv(p, home) && key in p.scheduled && home(key) in p.desks && Servable(p.desks[home(key)], key)
    ensures var q := Onward(p, home, more);
            Inv(q, home) && key !in q.scheduled && q.scheduled <= p.scheduled && (AllServable(p, home) ==> AllServable(q, home))
    decreases Distance(p.desks[home(key)])
  {
    WorkerServes(p, home, key);
    var a := NextStep(p, home(key));
    var q := Done(p, a, home);
    if key in q.scheduled {
      var later := ServeKey(q, home, key);
      more := [a] + later;
      assert more[1..] == later;
    } else {
      more := [a];
      assert more[1..] == [];
    }
  }

  /**
   The exact condition: a scheduled key can still be completed if and only if it is in hand, or
   queued ahead of any Stop on a thread that has not returned.
   */
  lemma ServedIff(actions: seq<Action>, home: string -> string, key: string)
    requires key in After(actions, home).scheduled
    ensures home(key) in After(actions, home).desks
    ensures (exists more :: key !in Onward(After(actions, home), home, more).scheduled)
            <==> Servable(After(actions, home).desks[home(key)], key)
  {
    RunKeepsInv(actions, home);
    var p := After(actions, home);
    assert Holds(p, home(key), key);
    if Servable(p.desks[home(key)], key) {
      var more := ServeKey(p, home, key);
    } else {
      forall more ensures key in Onward(p, home, more).scheduled {
        NeverServed(p, home, key, more);
      }
    }
  }

  lemma {:induction false} OnwardAppend(p: Pool, home: string -> string, xs: seq<Action>, ys: seq<Action>)
    ensures Onward(p, home, xs + ys) == Onward(Onward(p, home, xs), home, ys)
    decreases |xs|
  {
    if xs == [] {
      assert xs + ys == ys;
    } else {
      assert (xs + ys)[1..] == xs[1..] + ys;
      OnwardAppend(if Enabled(p, xs[0], home) then Done(p, xs[0], home) else p, home, xs[1..], ys);
    }
  }

  lemma {:induction false} ServeAll(p: Pool, home: string -> string) returns (more: seq<Action>)
    requires Inv(p, home) && AllServable(p, home)
    ensures Onward(p, home, more).pending == 0
    decreases |p.scheduled|
  {
    if p.scheduled == {} {
      return [];
    }
    var key :| key in p.scheduled;
    var first := ServeKey(p, home, key);
    var q := Onward(p, home, first);
    Smaller(q.scheduled, p.scheduled, key);
    var rest := ServeAll(q, home);
    OnwardAppend(p, home, first, rest);
    more := first + rest;
  }

  lemma Smaller(a: set<string>, b: set<string>, key: string)
    requires a <= b && key in b && key !in a
    ensures |a| < |b|
  {
    assert a <= b - {key};
    SubsetSize(a, b - {key});
  }

  lemma {:induction false} SubsetSize(a: set<string>, b: set<string>)
    requires a <= b
    ensures |a| <= |b|
    decreases a
  {
    if a != {} {
      var x :| x in a;
      SubsetSize(a - {x}, b - {x});
    }
  }

  /** The coordinator can become idle, as wait_idle wants, if and only if everything scheduled can be served. */
  lemma IdleIff(actions: seq<Action>, home: string -> string)
    ensures (exists more :: Onward(After(actions, home), home, more).pending == 0) <==> AllServable(After(actions, home), home)
  {
    RunKeepsInv(actions, home);
    var p := After(actions, home);
    if AllServable(p, home) {
      var more := ServeAll(p, home);
    } else {
      var key :| key in p.scheduled && !(home(key) in p.desks && Servable(p.desks[home(key)], key));
      assert Holds(p, home(key), key);
      forall more ensures Onward(p, home, more).pending > 0 {
        NeverServed(p, home, key, more);
      }
    }
  }

  lemma AfterMore(actions: seq<Action>, home: string -> string, a: Action)
    ensures After(actions + [a], home)
            == if Enabled(After(actions, home), a, home) then Done(After(actions, home), a, home) else After(actions, home)
  {
    assert (actions + [a])[..|actions|] == actions;
  }

  /**
   Looking a worker up and scheduling on it are separate critical sections: work scheduled on a
   worker that has meanwhile been closed cannot be served.
   */
  lemma LateWorkIsStuck(home: string -> string, key: string)
    ensures var s := home(key);
            var p := After([] + [Open(s)] + [Close] + [CloseWorker(s)] + [Take(s)] + [Submit(key)], home);
            key in p.scheduled && s in p.desks && !Servable(p.desks[s], key)
  {
    var s := home(key);
    AfterMore([], home, Open(s));
    AfterMore([] + [Open(s)], home, Close);
    AfterMore([] + [Open(s)] + [Close], home, CloseWorker(s));
    AfterMore([] + [Open(s)] + [Close] + [CloseWorker(s)], home, Take(s));
    AfterMore([] + [Open(s)] + [Close] + [CloseWorker(s)] + [Take(s)], home, Submit(key));
  }

  /**
   A worker whose thread ended with an exception from a failure handler stays in the table: what is
   scheduled on it later cannot be served, although nothing was closed.
   */
  lemma DeadWorkerIsStuck(home: string -> string, first: string, key: string)
    requires home(first) == home(key) && first != key
    ensures var s := home(key);
            var p := After([] + [Open(s)] + [Submit(first)] + [Take(s)] + [Die(s)] + [Submit(key)], home);
            !p.closed && key in p.scheduled && s in p.desks && !Servable(p.desks[s], key)
  {
    var s := home(key);
    AfterMore([], home, Open(s));
    AfterMore([] + [Open(s)], home, Submit(first));
    AfterMore([] + [Open(s)] + [Submit(first)], home, Take(s));
    AfterMore([] + [Open(s)] + [Submit(first)] + [Take(s)], home, Die(s));
    AfterMore([] + [Open(s)] + [Submit(first)] + [Take(s)] + [Die(s)], home, Submit(key));
  }
}

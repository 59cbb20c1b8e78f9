/**
 Drive authorization requests are handed from the message thread to a worker thread through a
 queue. Both sides update the coordinator's fields only inside one lock; between lock sections
 they interleave freely.
 */
module DriveAuth {
  import opened Wrappers

  datatype Id = Name(text: string) | Number(value: int)

  /** The parts of a message that intercept looks at; None when absent or of another type. */
  datatype Incoming = Incoming(authType: string, id: Option<Id>)

  datatype Fault = Unauthorized | Unexpected | ReplyFailed

  /** The fields under the lock; requests are represented by their ids. */
  datatype Fields = Fields(seen: set<Id>, replied: set<Id>, requests: seq<Id>, thread: Option<nat>, error: Option<Fault>)

  /**
   A worker thread between two lock sections: about to take a request, working on one, having
   marked it as replied, ended by its own return, or ended by an exception while building a reply.
   */
  datatype Worker = AtTop | Working(id: Id) | Marked(id: Id) | Returned | Died

  predicate Alive(w: Worker) {
    w != Returned && w != Died
  }

  /** What happened so far: ids accepted, ids marked as replied, and replies handed to the channel or refused by it. */
  datatype Trace = Trace(accepted: seq<Id>, handled: seq<Id>, attempted: seq<Id>, failed: seq<Id>)

  datatype System = System(fields: Fields, workers: seq<Worker>, trace: Trace)

  predicate IsRequest(m: Incoming) {
    m.authType == "dfs_ephemeral" && m.id.Some? && (m.id.value.Name? ==> m.id.value.text != "")
  }

  predicate ThreadAlive(f: Fields, workers: seq<Worker>) {
    f.thread.Some? && f.thread.value < |workers| && Alive(workers[f.thread.value])
  }

  /** The lock section of intercept for a new id: queue the request; start a thread when none is alive. */
  function Accepted(f: Fields, workers: seq<Worker>, id: Id): (Fields, seq<Worker>) {
    var g := f.(seen := f.seen + {id}, requests := f.requests + [id]);
    if ThreadAlive(f, workers) then (g, workers) else (g.(thread := Some(|workers|)), workers + [AtTop])
  }

  /** The lock section at the top of _run: take a request, or clear the thread field and return. */
  function Taken(f: Fields): (Fields, Worker) {
    if f.requests == [] then (f.(thread := None), Returned)
    else (f.(requests := f.requests[1..]), Working(f.requests[0]))
  }

  /** The lock section of _send_reply. */
  function MarkedReplied(f: Fields, id: Id): (Fields, Worker) {
    if id in f.replied then (f, AtTop) else (f.(replied := f.replied + {id}), Marked(id))
  }

  function Recorded(f: Fields, fault: Fault): Fields {
    if f.error.None? then f.(error := Some(fault)) else f
  }

  class Coordinator {
    var seen: set<Id>
    var replied: set<Id>
    var requests: seq<Id>
    var thread: Option<nat>
    var error: Option<Fault>
    // every thread started so far, by number
    var workers: seq<Worker>

    constructor ()
      ensures Now() == Fields({}, {}, [], None, None) && workers == []
    {
      seen, replied, requests, thread, error, workers := {}, {}, [], None, None, [];
    }

    function Now(): Fields
      reads this
    {
      Fields(seen, replied, requests, thread, error)
    }

    /** intercept: false leaves the message to others. */
    method Intercept(m: Incoming) returns (ours: bool)
      modifies this
      ensures ours == IsRequest(m)
      ensures ours <==> m.authType == "dfs_ephemeral" && m.id.Some? && m.id != Some(Name(""))
      ensures (Now(), workers) == if ours && m.id.value !in old(seen) then Accepted(old(Now()), old(workers), m.id.value)
                                  else (old(Now()), old(workers))
    {
      if m.authType != "dfs_ephemeral" {
        return false;
      }
      if m.id.None? || m.id == Some(Name("")) {
        return false;
      }
      var id := m.id.value;
      if id in seen {
        return true;
      }
      seen := seen + {id};
      requests := requests + [id];
      var alive := match thread case None => false case Some(w) => w < |workers| && Alive(workers[w]);
      if !alive {
        thread := Some(|workers|);
        workers := workers + [AtTop];
      }
      return true;
    }

    /** The top of the worker's loop. */
    method Take(w: nat)
      requires w < |workers| && workers[w] == AtTop
      modifies this
      ensures (Now(), workers) == (Taken(old(Now())).0, old(workers)[w := Taken(old(Now())).1])
    {
      if requests == [] {
        thread := None;
        workers := workers[w := Returned];
        return;
      }
      workers := workers[w := Working(requests[0])];
      requests := requests[1..];
    }

    /** The lock section of _send_reply. */
    method MarkReplied(w: nat)
      requires w < |workers| && workers[w].Working?
      modifies this
      ensures (Now(), workers) == (MarkedReplied(old(Now()), old(workers)[w].id).0,
                                   old(workers)[w := MarkedReplied(old(Now()), old(workers)[w].id).1])
    {
      var id := workers[w].id;
      if id in replied {
        workers := workers[w := AtTop];
        return;
      }
      replied := replied + {id};
      workers := workers[w := Marked(id)];
    }

    /** _record_error: the first error is kept. */
    method RecordError(fault: Fault)
      modifies this`error
      ensures Now() == Recorded(old(Now()), fault)
    {
      if error.None? {
        error := Some(fault);
      }
    }
  }

  // ---------------------------------------------------------------- all interleavings

  datatype Action =
    | Receive(m: Incoming)
    | TakeNext(w: nat)
    | Fail(w: nat, fault: Fault)
    | Mark(w: nat)
    | Send(w: nat, delivered: bool)
    | RaiseInReply(w: nat)

  predicate Enabled(s: System, a: Action) {
    match a
    case Receive(_) => true
    case TakeNext(w) => w < |s.workers| && s.workers[w] == AtTop
    case Fail(w, _) => w < |s.workers| && s.workers[w].Working?
    case Mark(w) => w < |s.workers| && s.workers[w].Working?
    case Send(w, _) => w < |s.workers| && s.workers[w].Marked?
    case RaiseInReply(w) => w < |s.workers| && s.workers[w].Marked?
  }

  function Next(s: System, a: Action): System
    requires Enabled(s, a)
  {
    match a
    case Receive(m) =>
      if IsRequest(m) && m.id.value !in s.fields.seen then
        var (f, ws) := Accepted(s.fields, s.workers, m.id.value);
        System(f, ws, s.trace.(accepted := s.trace.accepted + [m.id.value]))
      else s
    case TakeNext(w) =>
      var (f, next) := Taken(s.fields);
      System(f, s.workers[w := next], s.trace)
    case Fail(w, fault) => s.(fields := Recorded(s.fields, fault))
    case Mark(w) =>
      var id := s.workers[w].id;
      var (f, next) := MarkedReplied(s.fields, id);
      System(f, s.workers[w := next], if next == AtTop then s.trace else s.trace.(handled := s.trace.handled + [id]))
    case Send(w, delivered) =>
      var id := s.workers[w].id;
      System(if delivered then s.fields else Recorded(s.fields, ReplyFailed), s.workers[w := AtTop],
             s.trace.(attempted := s.trace.attempted + [id], failed := if delivered then s.trace.failed else s.trace.failed + [id]))
    case RaiseInReply(w) => s.(workers := s.workers[w := Died])
  }

  const START := System(Fields({}, {}, [], None, None), [], Trace([], [], [], []))

  /** A run is given by its actions, in any order; one that is not enabled changes nothing. */
  function After(actions: seq<Action>): System {
    if actions == [] then START
    else
      var s, a := After(actions[..|actions| - 1]), actions[|actions| - 1];
      if Enabled(s, a) then Next(s, a) else s
  }

  lemma AfterMore(actions: seq<Action>, a: Action)
    ensures After(actions + [a]) == if Enabled(After(actions), a) then Next(After(actions), a) else After(actions)
  {
    assert (actions + [a])[..|actions|] == actions;
  }

  function SetOf(ids: seq<Id>): set<Id> {
    set id <- ids
  }

  /** The request a worker has taken and not yet marked. */
  function InHand(ws: seq<Worker>): seq<Id> {
    if ws == [] then []
    else
      var last := ws[|ws| - 1];
      if last.Working? then [last.id] else []
  }

  /**
   Only the newest thread can be alive, and the thread field names it exactly while it has not
   returned. Accepted ids are those handled, then the one in hand, then those queued, in order.
   */
  ghost predicate Inv(s: System) {
    var n := |s.workers|;
    && (forall w :: 0 <= w < n - 1 ==> !Alive(s.workers[w]))
    && s.fields.thread == (if n == 0 || s.workers[n - 1] == Returned then None else Some(n - 1))
    && s.trace.accepted == s.trace.handled + InHand(s.workers) + s.fields.requests
    && Distinct(s.trace.accepted)
    && s.fields.seen == SetOf(s.trace.accepted) && s.fields.replied == SetOf(s.trace.handled)
    && (s.fields.thread.None? ==> s.fields.requests == [])
  }

  lemma DistinctMore(ids: seq<Id>, id: Id)
    requires Distinct(ids) && id !in SetOf(ids)
    ensures Distinct(ids + [id]) && SetOf(ids + [id]) == SetOf(ids) + {id}
  {
    forall i, j | 0 <= i < j < |ids + [id]| ensures (ids + [id])[i] != (ids + [id])[j] {
      assert ids[i] in SetOf(ids);
    }
  }

  lemma ReceiveKeepsInv(s: System, m: Incoming)
    requires Inv(s)
    ensures Inv(Next(s, Receive(m)))
  {
    if IsRequest(m) && m.id.value !in s.fields.seen {
      DistinctMore(s.trace.accepted, m.id.value);
      var t := Next(s, Receive(m));
      assert InHand(t.workers) == InHand(s.workers);
      assert t.trace.accepted == t.trace.handled + InHand(t.workers) + t.fields.requests;
    }
  }

  lemma WorkerIsLast(s: System, w: nat)
    requires Inv(s) && w < |s.workers| && Alive(s.workers[w])
    ensures w == |s.workers| - 1 && s.fields.thread == Some(w)
  {
  }

  lemma TakeKeepsInv(s: System, w: nat)
    requires Inv(s) && Enabled(s, TakeNext(w))
    ensures Inv(Next(s, TakeNext(w)))
  {
    WorkerIsLast(s, w);
    if s.fields.requests != [] {
      assert s.fields.requests == [s.fields.requests[0]] + s.fields.requests[1..];
    }
  }

  lemma MarkKeepsInv(s: System, w: nat)
    requires Inv(s) && Enabled(s, Mark(w))
    ensures Inv(Next(s, Mark(w))) && Next(s, Mark(w)).workers[w].Marked?
  {
    WorkerIsLast(s, w);
    var id, h := s.workers[w].id, |s.trace.handled|;
    assert s.trace.accepted[h] == id;
    assert forall i :: 0 <= i < h ==> s.trace.handled[i] == s.trace.accepted[i];
    assert id !in s.fields.replied;
    assert SetOf(s.trace.handled + [id]) == SetOf(s.trace.handled) + {id};
  }

  lemma StepKeepsInv(s: System, a: Action)
    requires Inv(s) && Enabled(s, a)
    ensures Inv(Next(s, a))
  {
    match a
    case Receive(m) => ReceiveKeepsInv(s, m);
    case TakeNext(w) => TakeKeepsInv(s, w);
    case Fail(_, _) =>
    case Mark(w) => MarkKeepsInv(s, w);
    case Send(w, _) => WorkerIsLast(s, w);
    case RaiseInReply(w) => WorkerIsLast(s, w);
  }

  lemma {:induction false} RunKeepsInv(actions: seq<Action>)
    ensures Inv(After(actions))
  {
    if actions != [] {
      var n := |actions| - 1;
      RunKeepsInv(actions[..n]);
      if Enabled(After(actions[..n]), actions[n]) {
        StepKeepsInv(After(actions[..n]), actions[n]);
      }
    }
  }

  /** At most one worker is alive. */
  lemma OneWorker(actions: seq<Action>, v: nat, w: nat)
    requires v < |After(actions).workers| && w < |After(actions).workers|
    requires Alive(After(actions).workers[v]) && Alive(After(actions).workers[w])
    ensures v == w
  {
    RunKeepsInv(actions);
    WorkerIsLast(After(actions), v);
    WorkerIsLast(After(actions), w);
  }

  predicate Stranded(s: System) {
    s.fields.requests != [] && forall w <- s.workers :: !Alive(w)
  }

  /**
   A queued request has a live worker that will go back to the queue, unless the thread on record
   died while building a reply. The thread's own return cannot strand a request.
   */
  lemma QueueHasWorker(actions: seq<Action>)
    ensures var s := After(actions);
            && (Stranded(s) <==> s.fields.requests != [] && s.fields.thread.Some? && !ThreadAlive(s.fields, s.workers))
            && (s.fields.requests != [] && !Stranded(s) ==> ThreadAlive(s.fields, s.workers))
  {
    RunKeepsInv(actions);
    var s := After(actions);
    if ThreadAlive(s.fields, s.workers) {
      assert s.workers[s.fields.thread.value] in s.workers;
    }
  }

  predicate NoRaise(actions: seq<Action>) {
    forall a <- actions :: !a.RaiseInReply?
  }

  /** Without such an exception no thread dies, and nothing is ever stranded. */
  lemma {:induction false} NoDeath(actions: seq<Action>)
    requires NoRaise(actions)
    ensures Died !in After(actions).workers
  {
    if actions != [] {
      var n := |actions| - 1;
      NoDeath(actions[..n]);
      assert actions[n] in actions;
      var s, t := After(actions[..n]), After(actions);
      forall w | 0 <= w < |t.workers| ensures t.workers[w] != Died {
        assert w < |s.workers| ==> s.workers[w] in s.workers;
      }
    }
  }

  lemma NeverStranded(actions: seq<Action>)
    requires NoRaise(actions)
    ensures !Stranded(After(actions))
  {
    RunKeepsInv(actions);
    NoDeath(actions);
    QueueHasWorker(actions);
    var s := After(actions);
    if s.fields.thread.Some? {
      assert s.workers[s.fields.thread.value] in s.workers;
    }
  }

  /** An exception while building a reply does strand the requests behind it. */
  lemma RaiseStrands(m: Incoming, n: Incoming)
    requires IsRequest(m) && IsRequest(n) && m.id != n.id
    ensures Stranded(After([Receive(m), TakeNext(0), Mark(0), Receive(n), RaiseInReply(0)]))
  {
    FirstIsMarked(m);
    var marked := [Receive(m), TakeNext(0), Mark(0)];
    AfterMore(marked, Receive(n));
    assert marked + [Receive(n)] == [Receive(m), TakeNext(0), Mark(0), Receive(n)];
    AfterMore([Receive(m), TakeNext(0), Mark(0), Receive(n)], RaiseInReply(0));
    assert [Receive(m), TakeNext(0), Mark(0), Receive(n)] + [RaiseInReply(0)]
           == [Receive(m), TakeNext(0), Mark(0), Receive(n), RaiseInReply(0)];
  }

  lemma FirstIsTaken(m: Incoming)
    requires IsRequest(m)
    ensures After([Receive(m), TakeNext(0)])
            == System(Fields({m.id.value}, {}, [], Some(0), None), [Working(m.id.value)], Trace([m.id.value], [], [], []))
  {
    AfterMore([], Receive(m));
    assert [] + [Receive(m)] == [Receive(m)];
    AfterMore([Receive(m)], TakeNext(0));
    assert [Receive(m)] + [TakeNext(0)] == [Receive(m), TakeNext(0)];
  }

  lemma FirstIsMarked(m: Incoming)
    requires IsRequest(m)
    ensures After([Receive(m), TakeNext(0), Mark(0)])
            == System(Fields({m.id.value}, {m.id.value}, [], Some(0), None), [Marked(m.id.value)],
                      Trace([m.id.value], [m.id.value], [], []))
  {
    FirstIsTaken(m);
    AfterMore([Receive(m), TakeNext(0)], Mark(0));
    assert [Receive(m), TakeNext(0)] + [Mark(0)] == [Receive(m), TakeNext(0), Mark(0)];
  }

  /** Every further request starts a new worker, which then serves what was stranded too. */
  lemma NextRequestRepairs(actions: seq<Action>, m: Incoming)
    requires IsRequest(m) && m.id.value !in After(actions).fields.seen
    ensures !Stranded(After(actions + [Receive(m)]))
  {
    var longer := actions + [Receive(m)];
    AfterMore(actions, Receive(m));
    RunKeepsInv(actions);
    RunKeepsInv(longer);
    QueueHasWorker(longer);
  }

  // ---------------------------------------------------------------- replies

  /** The request a worker has marked and not yet replied to. */
  function Unsent(ws: seq<Worker>): seq<Id> {
    if ws == [] then []
    else
      var last := ws[|ws| - 1];
      if last.Marked? then [last.id] else []
  }

  lemma {:induction false} RepliesFollowMarks(actions: seq<Action>)
    requires NoRaise(actions)
    ensures After(actions).trace.handled == After(actions).trace.attempted + Unsent(After(actions).workers)
  {
    if actions != [] {
      var n := |actions| - 1;
      assert actions[n] in actions;
      RepliesFollowMarks(actions[..n]);
      RunKeepsInv(actions[..n]);
      if Enabled(After(actions[..n]), actions[n]) {
        RepliesFollowMarksStep(After(actions[..n]), actions[n]);
      }
    }
  }

  lemma RepliesFollowMarksStep(s: System, a: Action)
    requires Inv(s) && Enabled(s, a) && !a.RaiseInReply?
    requires s.trace.handled == s.trace.attempted + Unsent(s.workers)
    ensures Next(s, a).trace.handled == Next(s, a).trace.attempted + Unsent(Next(s, a).workers)
  {
    match a
    case Receive(_) =>
    case TakeNext(w) => WorkerIsLast(s, w);
    case Fail(_, _) =>
    case Mark(w) =>
      WorkerIsLast(s, w);
      MarkKeepsInv(s, w);
    case Send(w, _) => WorkerIsLast(s, w);
  }

  /** Replies go out in the order in which requests were accepted, each at most once. */
  lemma RepliesInOrder(actions: seq<Action>)
    requires NoRaise(actions)
    ensures After(actions).trace.attempted <= After(actions).trace.accepted
    ensures Distinct(After(actions).trace.attempted)
  {
    RunKeepsInv(actions);
    RepliesFollowMarks(actions);
    var s := After(actions);
    assert forall i :: 0 <= i < |s.trace.attempted| ==> s.trace.attempted[i] == s.trace.accepted[i];
  }

  /** When no thread is on record, as wait finds it, every request ever accepted has been replied to. */
  lemma QuietMeansAnswered(actions: seq<Action>)
    requires NoRaise(actions) && After(actions).fields.thread.None?
    ensures After(actions).trace.attempted == After(actions).trace.accepted
    ensures After(actions).fields.replied == After(actions).fields.seen
  {
    RunKeepsInv(actions);
    RepliesFollowMarks(actions);
  }

  // ---------------------------------------------------------------- progress

  /** How far the worker is from its return, if nothing more is accepted. */
  function Distance(s: System): nat
  {
    4 * |s.fields.requests| +
    if s.workers == [] then 0
    else match s.workers[|s.workers| - 1]
         case AtTop => 1
         case Working(_) => 3
         case Marked(_) => 2
         case _ => 0
  }

  /** The next thing the live worker does. */
  function WorkerStep(s: System, delivered: bool): Action
    requires s.workers != []
  {
    var w := |s.workers| - 1;
    match s.workers[w]
    case Working(_) => Mark(w)
    case Marked(_) => Send(w, delivered)
    case _ => TakeNext(w)
  }

  /** As long as anything is unanswered the worker can move, and each move brings it closer. */
  lemma WorkerProgresses(actions: seq<Action>, delivered: bool)
    requires NoRaise(actions) && After(actions).fields.thread.Some?
    ensures After(actions).workers != []
    ensures var a := WorkerStep(After(actions), delivered);
            Enabled(After(actions), a) && Distance(Next(After(actions), a)) < Distance(After(actions))
  {
    RunKeepsInv(actions);
    NoDeath(actions);
    StepIsCloser(After(actions), delivered);
  }

  lemma StepIsCloser(s: System, delivered: bool)
    requires Inv(s) && s.fields.thread.Some? && Died !in s.workers
    ensures s.workers != []
    ensures var a := WorkerStep(s, delivered); Enabled(s, a) && Distance(Next(s, a)) < Distance(s)
  {
    var w := |s.workers| - 1;
    assert s.workers[w] in s.workers;
    if s.workers[w].Working? {
      MarkKeepsInv(s, w);
    }
  }

  /** Left alone, the worker answers everything and returns. */
  lemma {:induction false} WorkerFinishes(actions: seq<Action>) returns (more: seq<Action>)
    requires NoRaise(actions)
    ensures NoRaise(actions + more)
    ensures |more| <= Distance(After(actions))
    ensures After(actions + more).fields.thread.None?
    ensures After(actions + more).trace.accepted == After(actions).trace.accepted
    ensures After(actions + more).trace.attempted == After(actions).trace.accepted
    decreases Distance(After(actions))
  {
    if After(actions).fields.thread.None? {
      more := [];
      assert actions + more == actions;
      QuietMeansAnswered(actions);
    } else {
      WorkerProgresses(actions, true);
      var a := WorkerStep(After(actions), true);
      var longer := actions + [a];
      AfterMore(actions, a);
      var later := WorkerFinishes(longer);
      more := [a] + later;
      assert actions + more == longer + later;
    }
  }
}

/**
 What a controller does to every execution when it starts, before any worker runs, and when it is
 made to stop while executions are active.
 */
module Restart {
  import opened Wrappers
  import opened Lifecycle
  import opened KernelProof
  import opened Storage
  import opened KernelWorker
  import opened WorkerSafety
  import opened WorkerRuns

  predicate IsActive(s: State) {
    s.Dispatching? || s.Running? || s.Disconnected?
  }

  /** Over, with finalized output and no source. */
  function Ended(r: Record, to: State, source: Option<CompletionSource>): Record {
    Entered(r, to).(finalized := true, sourceKept := false, completion := Coalesce(source, r.completion))
  }

  /** A row after a restart. */
  function Reconciled(r: Record): Record {
    if r.state == Dispatching then Ended(r.(complete := false), Unknown, Some(Recovery))
    else if !IsObserved(r.state) then r
    else
      match RestartVerdict(r.evidence, r.requested)
      case Some(verdict) => Ended(r, verdict, Some(DurableEvidence))
      case None => if r.state == Running then Entered(r.(complete := false), Disconnected) else r.(complete := false)
  }

  /** A row after a forced stop. */
  function Forced(r: Record): Record {
    if r.state == Running then Ended(Entered(r.(complete := false), Disconnected), Unknown, None)
    else if IsActive(r.state) then Ended(r.(complete := false), Unknown, None)
    else r
  }

  predicate NamesInterrupt(name: Option<string>) {
    name == Some("KeyboardInterrupt") || name == Some("InterruptedError") || name == Some("CancelledError")
  }

  predicate IsRequested(requested: Option<State>) {
    requested == Some(Interrupted) || requested == Some(TimedOut)
  }

  /** The columns call for a verdict: a reply and an idle, and a status or a requested interrupt that the error name shows. */
  predicate IsDecided(v: Evidence, requested: Option<State>) {
    v.reply && v.idle && (v.status.Some? || (IsRequested(requested) && NamesInterrupt(v.errorName)))
  }

  /** The verdict in the columns, by the reply's status, the error name and the request. */
  predicate EndsAs(v: Evidence, requested: Option<State>, to: State) {
    var interrupted := v.status == Some(ReplyAborted) || NamesInterrupt(v.errorName);
    match to
    case Finished => v.status == Some(ReplyOk)
    case Interrupted => requested == Some(Interrupted) && v.status != Some(ReplyOk) && interrupted
    case TimedOut => requested == Some(TimedOut) && v.status != Some(ReplyOk) && interrupted
    case Error => v.status != Some(ReplyOk) && !(IsRequested(requested) && interrupted)
    case _ => false
  }

  lemma ColumnsDecide(v: Evidence, requested: Option<State>, to: State)
    ensures RestartVerdict(v, requested).Some? <==> IsDecided(v, requested)
    ensures IsDecided(v, requested) ==> (RestartVerdict(v, requested) == Some(to) <==> EndsAs(v, requested, to))
  {
    assert IsInterruptError(v.errorName) <==> NamesInterrupt(v.errorName);
    if v.status.Some? {
      match v.status.value
      case ReplyOk =>
      case ReplyError =>
      case ReplyAborted =>
    }
  }

  /** Confirmed work that was not over and of which the columns do not tell how it ended. */
  predicate IsUnsettled(r: Record) {
    (r.state == Running || r.state == Disconnected) && !IsDecided(r.evidence, r.requested)
  }

  lemma StateAfter(r: Record)
    ensures r.state == Dispatching ==> Reconciled(r).state == Unknown
    ensures !r.state.Dispatching? && !r.state.Running? && !r.state.Disconnected? ==> Reconciled(r) == r
    ensures r.state == Running || r.state == Disconnected ==>
              var verdict := RestartVerdict(r.evidence, r.requested);
              Reconciled(r).state == if verdict.Some? then verdict.value else Disconnected
  {
  }

  /** Exactly the unsettled rows are kept, disconnected, for recovery; nothing else is, and none of them is lost. */
  lemma UnsettledIsKept(r: Record)
    ensures Reconciled(r).state == Disconnected <==> IsUnsettled(r)
  {
    StateAfter(r);
    ColumnsDecide(r.evidence, r.requested, Disconnected);
  }

  /** Which texts a change of one row discards. */
  predicate Closes(r: Record, q: Record) {
    !IsTerminal(r.state) && IsTerminal(q.state)
  }

  /** The rows and the stored texts. */
  datatype Snapshot = Snapshot(executions: map<string, Record>, sources: map<string, Bytes>)

  function RowOf(s: Snapshot, id: string): Option<Record> {
    if id in s.executions then Some(s.executions[id]) else None
  }

  function TextOf(s: Snapshot, id: string): Option<Bytes> {
    if id in s.sources then Some(s.sources[id]) else None
  }

  /** One row was changed, and its text discarded if that ended it. */
  ghost predicate ChangedAt(s: Snapshot, t: Snapshot, id: string, change: Record -> Record) {
    match RowOf(s, id)
    case None => RowOf(t, id) == None && TextOf(t, id) == TextOf(s, id)
    case Some(r) => RowOf(t, id) == Some(change(r)) && TextOf(t, id) == if Closes(r, change(r)) then None else TextOf(s, id)
  }

  ghost predicate SameAt(s: Snapshot, t: Snapshot, id: string) {
    RowOf(t, id) == RowOf(s, id) && TextOf(t, id) == TextOf(s, id)
  }

  /** Every row was changed but those still to do. */
  ghost predicate Changed(s: Snapshot, t: Snapshot, todo: set<string>, change: Record -> Record) {
    forall id :: if id in todo then SameAt(s, t, id) else ChangedAt(s, t, id, change)
  }

  /** Nothing but the row and the text of one execution was changed. */
  ghost predicate OnlyChanged(s: Snapshot, t: Snapshot, id: string, change: Record -> Record) {
    ChangedAt(s, t, id, change) && forall other :: other != id ==> SameAt(s, t, other)
  }

  method Close(store: DurableStore, id: string, to: State, source: Option<CompletionSource>, now: nat)
    requires id in store.executions && IsTerminal(to) && Allows(store.executions[id].state, to)
    modifies store
    ensures store.executions == old(store.executions)[id := Ended(old(store.executions)[id], to, source)]
    ensures store.sources == old(store.sources) - {id} && store.sessions == old(store.sessions)
  {
    var finalized := store.Finalize(id, now);
    var moved := store.TransitionExecution(id, to, source, now);
  }

  /** The evidence decides for states from which its verdict may be reached. */
  lemma VerdictIsAllowed(r: Record)
    requires IsObserved(r.state) && RestartVerdict(r.evidence, r.requested).Some?
    ensures var to := RestartVerdict(r.evidence, r.requested).value; IsTerminal(to) && Allows(r.state, to)
  {
  }

  method ReconcileOne(store: DurableStore, id: string, now: nat) returns (recover: bool)
    requires id in store.executions
    modifies store
    ensures OnlyChanged(old(Snapshot(store.executions, store.sources)), Snapshot(store.executions, store.sources), id, Reconciled)
    ensures recover <==> IsUnsettled(old(store.executions)[id])
  {
    if IsObserved(store.executions[id].state) {
      recover := ReconcileObserved(store, id, now);
    } else {
      recover := false;
      if store.executions[id].state == Dispatching {
        MarkAndDisconnect(store, id, now);
        Close(store, id, Unknown, Some(Recovery), now);
      }
    }
  }

  method ReconcileObserved(store: DurableStore, id: string, now: nat) returns (recover: bool)
    requires id in store.executions && IsObserved(store.executions[id].state)
    modifies store
    ensures store.executions == old(store.executions)[id := Reconciled(old(store.executions)[id])]
    ensures store.sources == if Closes(old(store.executions)[id], store.executions[id]) then old(store.sources) - {id} else old(store.sources)
    ensures recover <==> IsUnsettled(old(store.executions)[id])
  {
    var record := store.executions[id];
    UnsettledIsKept(record);
    var verdict := RestartVerdict(record.evidence, record.requested);
    if verdict.Some? {
      VerdictIsAllowed(record);
      Close(store, id, verdict.value, Some(DurableEvidence), now);
      return false;
    }
    MarkAndDisconnect(store, id, now);
    return true;
  }

  lemma ChangedMore(s: Snapshot, t: Snapshot, u: Snapshot, todo: set<string>, id: string, change: Record -> Record)
    requires Changed(s, t, todo, change) && id in todo
    requires OnlyChanged(t, u, id, change)
    ensures Changed(s, u, todo - {id}, change) && RowOf(t, id) == RowOf(s, id)
  {
    forall other ensures if other in todo - {id} then SameAt(s, u, other) else ChangedAt(s, u, other, change) {
      assert if other in todo then SameAt(s, t, other) else ChangedAt(s, t, other, change);
      if other == id {
        assert SameAt(s, t, id);
      } else {
        assert SameAt(t, u, other);
      }
    }
  }

  /** The ids of all rows, each once, in the order in which the query returns them. */
  ghost predicate Lists(order: seq<string>, executions: map<string, Record>) {
    Distinct(order) && forall id :: id in order <==> id in executions
  }

  /** Those of the ids to be kept, in order. */
  function Filter(order: seq<string>, keep: string -> bool): seq<string> {
    if order == [] then []
    else Filter(order[..|order| - 1], keep) + if keep(order[|order| - 1]) then [order[|order| - 1]] else []
  }

  lemma FilterMore(order: seq<string>, k: nat, keep: string -> bool)
    requires k < |order|
    ensures Filter(order[..k + 1], keep) == Filter(order[..k], keep) + if keep(order[k]) then [order[k]] else []
  {
    assert order[..k + 1][..k] == order[..k];
  }

  lemma {:induction false} FilterSame(order: seq<string>, f: string -> bool, g: string -> bool)
    requires forall id <- order :: f(id) == g(id)
    ensures Filter(order, f) == Filter(order, g)
  {
    if order != [] {
      FilterSame(order[..|order| - 1], f, g);
    }
  }

  predicate NeedsRecovery(executions: map<string, Record>, id: string) {
    id in executions && IsUnsettled(executions[id])
  }

  predicate WasActive(executions: map<string, Record>, id: string) {
    id in executions && IsActive(executions[id].state)
  }

  function Rest(order: seq<string>, k: nat): set<string>
    requires k <= |order|
  {
    set id <- order[k..]
  }

  lemma RestMore(order: seq<string>, k: nat)
    requires Distinct(order) && k < |order|
    ensures order[k] in Rest(order, k) && Rest(order, k) - {order[k]} == Rest(order, k + 1)
  {
    assert order[k..] == [order[k]] + order[k + 1..];
    assert order[k..][0] == order[k];
    var later := order[k + 1..];
    forall i | 0 <= i < |later| ensures later[i] != order[k] {
      assert later[i] == order[k + 1 + i];
    }
  }

  /**
   reconcile_after_restart: every row is reconciled, and exactly the executions that are then
   disconnected are returned for recovery, in the order in which they were queued.
   */
  method ReconcileAfterRestart(store: DurableStore, order: seq<string>, now: nat) returns (recoveryIds: seq<string>)
    requires Lists(order, store.executions)
    modifies store
    ensures Changed(old(Snapshot(store.executions, store.sources)), Snapshot(store.executions, store.sources), {}, Reconciled)
    ensures recoveryIds == Filter(order, id => NeedsRecovery(old(store.executions), id))
  {
    ghost var before := Snapshot(store.executions, store.sources);
    ghost var keep := id => NeedsRecovery(before.executions, id);
    recoveryIds := [];
    for k := 0 to |order|
      invariant Changed(before, Snapshot(store.executions, store.sources), Rest(order, k), Reconciled)
      invariant recoveryIds == Filter(order[..k], keep)
    {
      RestMore(order, k);
      FilterMore(order, k, keep);
      var recover := ReconcileNext(store, order[k], now, before, Rest(order, k));
      if recover {
        recoveryIds := recoveryIds + [order[k]];
      }
    }
    assert order[..|order|] == order && order[|order|..] == [];
    FilterSame(order, keep, id => NeedsRecovery(before.executions, id));
  }

  method ReconcileNext(store: DurableStore, id: string, now: nat, ghost before: Snapshot, ghost todo: set<string>) returns (recover: bool)
    requires Changed(before, Snapshot(store.executions, store.sources), todo, Reconciled) && id in todo && id in before.executions
    modifies store
    ensures Changed(before, Snapshot(store.executions, store.sources), todo - {id}, Reconciled)
    ensures recover <==> NeedsRecovery(before.executions, id)
  {
    ghost var earlier := Snapshot(store.executions, store.sources);
    assert SameAt(before, earlier, id);
    recover := ReconcileOne(store, id, now);
    ChangedMore(before, earlier, Snapshot(store.executions, store.sources), todo, id, Reconciled);
  }

  method ForceActive(store: DurableStore, id: string, now: nat)
    requires id in store.executions && IsActive(store.executions[id].state)
    modifies store
    ensures store.executions == old(store.executions)[id := Forced(old(store.executions)[id])]
    ensures store.sources == old(store.sources) - {id}
  {
    MarkAndDisconnect(store, id, now);
    Close(store, id, Unknown, None, now);
  }

  method MarkAndDisconnect(store: DurableStore, id: string, now: nat)
    requires id in store.executions && IsActive(store.executions[id].state)
    modifies store
    ensures var r := old(store.executions)[id].(complete := false);
            store.executions == old(store.executions)[id := if r.state == Running then Entered(r, Disconnected) else r]
    ensures store.sources == old(store.sources) && store.sessions == old(store.sessions)
  {
    var marked := store.MarkOutputIncomplete(id, now);
    if store.executions[id].state == Running {
      var moved := store.TransitionExecution(id, Disconnected, None, now);
    }
  }

  method ForceOne(store: DurableStore, id: string, now: nat) returns (active: bool)
    requires id in store.executions
    modifies store
    ensures OnlyChanged(old(Snapshot(store.executions, store.sources)), Snapshot(store.executions, store.sources), id, Forced)
    ensures active <==> IsActive(old(store.executions)[id].state)
  {
    active := IsActive(store.executions[id].state);
    if active {
      ForceActive(store, id, now);
    }
  }

  /**
   force_uncertain_active: what was active is over as unknown, and is returned, in order.
   */
  method ForceUncertainActive(store: DurableStore, order: seq<string>, now: nat) returns (affected: seq<string>)
    requires Lists(order, store.executions)
    modifies store
    ensures Changed(old(Snapshot(store.executions, store.sources)), Snapshot(store.executions, store.sources), {}, Forced)
    ensures affected == Filter(order, id => WasActive(old(store.executions), id))
  {
    ghost var before := Snapshot(store.executions, store.sources);
    ghost var keep := id => WasActive(before.executions, id);
    affected := [];
    for k := 0 to |order|
      invariant Changed(before, Snapshot(store.executions, store.sources), Rest(order, k), Forced)
      invariant affected == Filter(order[..k], keep)
    {
      RestMore(order, k);
      FilterMore(order, k, keep);
      var active := ForceNext(store, order[k], now, before, Rest(order, k));
      if active {
        affected := affected + [order[k]];
      }
    }
    assert order[..|order|] == order && order[|order|..] == [];
    FilterSame(order, keep, id => WasActive(before.executions, id));
  }

  method ForceNext(store: DurableStore, id: string, now: nat, ghost before: Snapshot, ghost todo: set<string>) returns (active: bool)
    requires Changed(before, Snapshot(store.executions, store.sources), todo, Forced) && id in todo && id in before.executions
    modifies store
    ensures Changed(before, Snapshot(store.executions, store.sources), todo - {id}, Forced)
    ensures active <==> WasActive(before.executions, id)
  {
    ghost var earlier := Snapshot(store.executions, store.sources);
    assert SameAt(before, earlier, id);
    active := ForceOne(store, id, now);
    ChangedMore(before, earlier, Snapshot(store.executions, store.sources), todo, id, Forced);
  }

  ghost predicate IsMember(batches: map<string, set<string>>, id: string) {
    exists b <- batches :: id in batches[b]
  }

  /** The members of all batches. */
  method AllMembers(batches: map<string, set<string>>) returns (members: set<string>)
    ensures forall id :: id in members <==> IsMember(batches, id)
  {
    members := {};
    var todo := batches.Keys;
    while todo != {}
      invariant todo <= batches.Keys
      invariant forall id :: id in members <==> exists b <- batches :: b !in todo && id in batches[b]
      decreases |todo|
    {
      var b :| b in todo;
      members := members + batches[b];
      todo := todo - {b};
    }
  }

  /** Not a member of an active batch, and in this state. */
  ghost predicate Alone(executions: map<string, Record>, batches: map<string, set<string>>, id: string, s: State) {
    id in executions && executions[id].state == s && !IsMember(batches, id)
  }

  /** Those of the ids that are in the state, and not among the members. */
  predicate Waits(rows: map<string, Record>, members: set<string>, id: string, s: State) {
    id in rows && rows[id].state == s && id !in members
  }

  method Select(rows: map<string, Record>, order: seq<string>, members: set<string>, s: State) returns (ids: seq<string>)
    ensures ids == Filter(order, id => Waits(rows, members, id, s))
  {
    ids := [];
    ghost var keep := id => Waits(rows, members, id, s);
    for k := 0 to |order|
      invariant ids == Filter(order[..k], keep)
    {
      FilterMore(order, k, keep);
      if order[k] in rows && rows[order[k]].state == s && order[k] !in members {
        ids := ids + [order[k]];
      }
    }
    assert order[..|order|] == order;
    FilterSame(order, keep, id => Waits(rows, members, id, s));
  }

  method Outside(ids: seq<string>, members: set<string>) returns (left: seq<string>)
    ensures left == Filter(ids, id => id !in members)
  {
    left := [];
    ghost var keep := id => id !in members;
    for k := 0 to |ids|
      invariant left == Filter(ids[..k], keep)
    {
      FilterMore(ids, k, keep);
      if ids[k] !in members {
        left := left + [ids[k]];
      }
    }
    assert ids[..|ids|] == ids;
    FilterSame(ids, keep, id => id !in members);
  }

  lemma {:induction false} FilterTwice(order: seq<string>, f: string -> bool, g: string -> bool, h: string -> bool)
    requires forall id <- order :: h(id) == (f(id) && g(id))
    ensures Filter(Filter(order, f), g) == Filter(order, h)
  {
    if order != [] {
      var n := |order| - 1;
      FilterTwice(order[..n], f, g, h);
      var first := Filter(order[..n], f);
      if f(order[n]) {
        assert (first + [order[n]])[..|first|] == first;
      } else {
        assert Filter(order, f) == first;
      }
    }
  }

  /**
   _reconcile_and_resume for one profile: after reconciliation every active batch is handed to its
   worker, and of the executions that are in none of them exactly the disconnected ones are
   recovered and exactly the queued ones are submitted, each in the order in which they were queued.
   */
  method ReconcileAndResume(store: DurableStore, order: seq<string>, batches: map<string, set<string>>, now: nat)
    returns (resumed: set<string>, recovered: seq<string>, submitted: seq<string>)
    requires Lists(order, store.executions)
    modifies store
    ensures Changed(old(Snapshot(store.executions, store.sources)), Snapshot(store.executions, store.sources), {}, Reconciled)
    ensures resumed == batches.Keys
    ensures var rows := store.executions;
            && recovered == Filter(order, id => Alone(rows, batches, id, Disconnected))
            && submitted == Filter(order, id => Alone(rows, batches, id, Queued))
  {
    ghost var before := Snapshot(store.executions, store.sources);
    var recoveryIds := ReconcileAfterRestart(store, order, now);
    var rows := store.executions;
    ReconciledRows(before, Snapshot(rows, store.sources));
    var members := AllMembers(batches);
    resumed := batches.Keys;
    recovered := Outside(recoveryIds, members);
    submitted := Select(rows, order, members, Queued);
    ResumedAre(order, before.executions, rows, batches, members);
  }

  lemma ResumedAre(order: seq<string>, before: map<string, Record>, rows: map<string, Record>,
                   batches: map<string, set<string>>, members: set<string>)
    requires rows.Keys == before.Keys && forall id <- before :: rows[id] == Reconciled(before[id])
    requires forall id :: id in members <==> IsMember(batches, id)
    ensures Filter(Filter(order, id => NeedsRecovery(before, id)), id => id !in members)
            == Filter(order, id => Alone(rows, batches, id, Disconnected))
    ensures Filter(order, id => Waits(rows, members, id, Queued)) == Filter(order, id => Alone(rows, batches, id, Queued))
  {
    forall id <- order ensures NeedsRecovery(before, id) <==> id in rows && rows[id].state == Disconnected {
      if id in before {
        UnsettledIsKept(before[id]);
      }
    }
    FilterTwice(order, id => NeedsRecovery(before, id), id => id !in members, id => Alone(rows, batches, id, Disconnected));
    FilterSame(order, id => Waits(rows, members, id, Queued), id => Alone(rows, batches, id, Queued));
  }

  lemma ReconciledRows(s: Snapshot, t: Snapshot)
    requires Changed(s, t, {}, Reconciled)
    ensures t.executions.Keys == s.executions.Keys
    ensures forall id <- s.executions :: t.executions[id] == Reconciled(s.executions[id])
  {
    forall id ensures id in s.executions <==> id in t.executions {
      assert ChangedAt(s, t, id, Reconciled);
    }
    forall id <- s.executions ensures t.executions[id] == Reconciled(s.executions[id]) {
      assert ChangedAt(s, t, id, Reconciled);
    }
  }

  // ---------------------------------------------------------------- what it achieves

  /** The transactions of reconciliation, in order; the same as the machine's controller thread makes. */
  function ApplyAll(ops: seq<Op>, r: Record, now: nat): Result<Record, StoreError> {
    if ops == [] then Ok(r)
    else
      match Apply(ops[0], r, now)
      case Err(e) => Err(e)
      case Ok(q) => ApplyAll(ops[1..], q, now)
  }

  lemma ApplyTwo(a: Op, b: Op, r: Record, now: nat)
    requires Apply(a, r, now).Ok?
    ensures ApplyAll([a, b], r, now) == Apply(b, Apply(a, r, now).value, now)
  {
    var q := Apply(a, r, now).value;
    assert [a, b][1..] == [b] && [b][1..] == [];
    assert ApplyAll([b], q, now) == Apply(b, q, now);
  }

  lemma ApplyThree(a: Op, b: Op, c: Op, r: Record, now: nat)
    requires Apply(a, r, now).Ok?
    requires Apply(b, Apply(a, r, now).value, now).Ok?
    ensures ApplyAll([a, b, c], r, now) == Apply(c, Apply(b, Apply(a, r, now).value, now).value, now)
  {
    assert [a, b, c][1..] == [b, c];
    ApplyTwo(b, c, Apply(a, r, now).value, now);
  }

  /** The machine's controller thread, left alone, does to the row what the method does. */
  lemma MachineReconciles(r: Record, now: nat)
    ensures OnReconcile(r) == Idle ==> Reconciled(r) == r
    ensures OnReconcile(r) != Idle ==>
              OnReconcile(r).Do? && OnReconcile(r).next == Idle && ApplyAll(OnReconcile(r).ops, r, now) == Ok(Reconciled(r))
  {
    if r.state == Dispatching {
      MachineGivesUp(r, now);
    } else if IsObserved(r.state) {
      MachineDecides(r, now);
    }
  }

  lemma MachineGivesUp(r: Record, now: nat)
    requires r.state == Dispatching
    ensures OnReconcile(r) == Do([MarkIncomplete, FinalizeOutput, Move(Unknown, Some(Recovery))], Idle, Reconcile, None)
    ensures ApplyAll(OnReconcile(r).ops, r, now) == Ok(Reconciled(r))
  {
    ApplyThree(MarkIncomplete, FinalizeOutput, Move(Unknown, Some(Recovery)), r, now);
  }

  lemma MachineDecides(r: Record, now: nat)
    requires IsObserved(r.state)
    ensures OnReconcile(r).Do? && OnReconcile(r).next == Idle && ApplyAll(OnReconcile(r).ops, r, now) == Ok(Reconciled(r))
  {
    var verdict := RestartVerdict(r.evidence, r.requested);
    if verdict.Some? {
      VerdictIsAllowed(r);
      ApplyTwo(FinalizeOutput, Move(verdict.value, Some(DurableEvidence)), r, now);
    } else if r.state == Running {
      ApplyTwo(MarkIncomplete, Move(Disconnected, None), r, now);
    } else {
      assert OnReconcile(r).ops == [MarkIncomplete] && [MarkIncomplete][1..] == [];
    }
  }

  /**
   After a restart an execution is queued, over, or disconnected, confirmed and flagged
   incomplete; what was sent but never confirmed is over as unknown, whatever the evidence.
   */
  lemma RestartSettles(r: Record)
    requires Sound(r)
    ensures var q := Reconciled(r);
            && (q.state == Queued || q.state == Disconnected || IsTerminal(q.state))
            && (q.state == Queued <==> r.state == Queued)
            && (q.state == Disconnected ==> q.confirmed && !q.complete)
            && (r.state == Dispatching ==> q.state == Unknown && !q.complete)
            && (IsTerminal(r.state) ==> q == r)
    ensures Sound(Reconciled(r)) && Grows(r, Reconciled(r))
  {
    if r.state == Dispatching {
      UnconfirmedSettles(r);
    } else if IsObserved(r.state) {
      ObservedSettles(r);
    }
  }

  lemma UnconfirmedSettles(r: Record)
    requires Sound(r) && r.state == Dispatching
    ensures Sound(Reconciled(r)) && Grows(r, Reconciled(r)) && Reconciled(r).state == Unknown && !Reconciled(r).complete
  {
    var a, b := r.(complete := false), r.(complete := false, finalized := true);
    ReconcileKeeps(MarkIncomplete, r);
    ReconcileKeeps(FinalizeOutput, a);
    ReconcileKeeps(Move(Unknown, Some(Recovery)), b);
    GrowsTransitive(r, b, Reconciled(r));
  }

  lemma ObservedSettles(r: Record)
    requires Sound(r) && IsObserved(r.state)
    ensures Sound(Reconciled(r)) && Grows(r, Reconciled(r))
    ensures IsTerminal(Reconciled(r).state) || (Reconciled(r).state == Disconnected && Reconciled(r).confirmed && !Reconciled(r).complete)
  {
    var verdict := RestartVerdict(r.evidence, r.requested);
    if verdict.Some? {
      VerdictIsAllowed(r);
      ReconcileKeeps(FinalizeOutput, r);
      ReconcileKeeps(Move(verdict.value, Some(DurableEvidence)), r.(finalized := true));
      GrowsTransitive(r, r.(finalized := true), Reconciled(r));
    } else {
      ReconcileKeeps(MarkIncomplete, r);
      if r.state == Running {
        ReconcileKeeps(Move(Disconnected, None), r.(complete := false));
        GrowsTransitive(r, r.(complete := false), Reconciled(r));
      }
    }
  }

  lemma ReconcileKeeps(op: Op, r: Record)
    requires Sound(r) && Apply(op, r, 0).Ok?
    requires op.Move? ==> !op.to.Dispatching? && !op.to.Running?
    ensures Sound(Apply(op, r, 0).value) && Grows(r, Apply(op, r, 0).value)
  {
    ApplyKeepsSound(op, r, 0);
    ApplyGrows(op, r, 0);
  }

  /**
   Where every row is after a restart, in its columns before: confirmed work without both a reply and an
   idle is kept for recovery and nothing else is; what was sent and not confirmed is UNKNOWN and nothing
   else becomes so; confirmed work with both ends as its columns say; all other rows stay as they were.
   */
  lemma RestartKeepsUnsettled(r: Record, to: State)
    requires ReplyHasStatus(r.evidence)
    ensures var q := Reconciled(r);
            var observed := r.state == Running || r.state == Disconnected;
            var decided := observed && r.evidence.reply && r.evidence.idle;
            && (q.state == Disconnected <==> observed && !decided)
            && (q.state == Unknown <==> r.state == Dispatching || r.state == Unknown)
            && (decided ==> (q.state == to <==> EndsAs(r.evidence, r.requested, to)))
            && (!observed && r.state != Dispatching ==> q == r)
  {
    StateAfter(r);
    ColumnsDecide(r.evidence, r.requested, Disconnected);
    ColumnsDecide(r.evidence, r.requested, Unknown);
    ColumnsDecide(r.evidence, r.requested, to);
  }

  /** What a restart writes beside the state: completeness is lost exactly for what it could not settle from evidence. */
  lemma RestartWrites(r: Record)
    requires ReplyHasStatus(r.evidence) && Sound(r)
    ensures var q := Reconciled(r);
            var observed := r.state == Running || r.state == Disconnected;
            var decided := observed && r.evidence.reply && r.evidence.idle;
            && (r.state == Dispatching || (observed && !decided) ==> !q.complete)
            && (decided ==> q.complete == r.complete && q.completion == Some(DurableEvidence))
            && (r.state == Dispatching ==> q.completion == Some(Recovery))
            && (q.finalized <==> r.finalized || r.state == Dispatching || decided)
            && q.evidence == r.evidence && q.requested == r.requested && q.outputs == r.outputs && q.deadline == r.deadline
            && q.journal == if r.state == q.state then r.journal else r.journal + [q.state]
  {
    if IsObserved(r.state) && RestartVerdict(r.evidence, r.requested).Some? {
      VerdictIsAllowed(r);
    }
    RestartKeepsUnsettled(r, r.state);
  }

  /** A forced stop ends what is active as UNKNOWN, incomplete and closed, and touches nothing else. */
  lemma ForceEnds(r: Record)
    ensures var q := Forced(r);
            if r.state == Dispatching || r.state == Running || r.state == Disconnected then
              && q.state == Unknown && !q.complete && q.finalized && !q.sourceKept
              && q.journal == (if r.state == Running then r.journal + [Disconnected] else r.journal) + [Unknown]
              && q.evidence == r.evidence && q.outputs == r.outputs && q.completion == r.completion
            else q == r
  {
  }

  /** Restarting again, for instance after a crash just after a restart, changes nothing more. */
  lemma RestartIsIdempotent(r: Record)
    requires r.state != Created
    ensures Reconciled(Reconciled(r)) == Reconciled(r)
  {
    if IsObserved(r.state) {
      ObservedTwice(r);
    } else if r.state == Dispatching {
      OverIsOver(Reconciled(r));
    }
  }

  lemma OverIsOver(r: Record)
    requires IsTerminal(r.state)
    ensures Reconciled(r) == r
  {
  }

  lemma ObservedTwice(r: Record)
    requires IsObserved(r.state)
    ensures Reconciled(Reconciled(r)) == Reconciled(r)
  {
    if RestartVerdict(r.evidence, r.requested).Some? {
      VerdictIsAllowed(r);
      OverIsOver(Reconciled(r));
    } else {
      assert Reconciled(r).evidence == r.evidence && Reconciled(r).requested == r.requested;
    }
  }

  /** A crash between two of the transactions is made up for by the next restart. */
  lemma InterruptedRestartAgrees(r: Record, k: nat, now: nat)
    requires r.state != Created && OnReconcile(r).Do? && 0 < k < |OnReconcile(r).ops|
    ensures ApplyAll(OnReconcile(r).ops[..k], r, now).Ok?
    ensures Reconciled(ApplyAll(OnReconcile(r).ops[..k], r, now).value) == Reconciled(r)
  {
    var ops := OnReconcile(r).ops;
    if k == 1 {
      assert ops[..1] == [ops[0]] && [ops[0]][1..] == [];
      assert ApplyAll(ops[..1], r, now) == Apply(ops[0], r, now);
      FirstIsHarmless(r, ops[0], now);
    } else {
      assert r.state == Dispatching;
      assert ops[..2] == [MarkIncomplete, FinalizeOutput];
      ApplyTwo(MarkIncomplete, FinalizeOutput, r, now);
    }
  }

  lemma FirstIsHarmless(r: Record, op: Op, now: nat)
    requires op == MarkIncomplete || (op == FinalizeOutput && IsObserved(r.state) && RestartVerdict(r.evidence, r.requested).Some?)
    requires op == MarkIncomplete ==> r.state == Dispatching || (IsObserved(r.state) && RestartVerdict(r.evidence, r.requested).None?)
    ensures Apply(op, r, now).Ok? && Reconciled(Apply(op, r, now).value) == Reconciled(r)
  {
  }
}

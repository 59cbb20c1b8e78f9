/**
 The durable store: one row per execution, changed by transactions. Every transaction is
 atomic, so each is a partial function on a row; the class below performs them in place.
 */
module Storage {
  import opened Wrappers
  import opened Lifecycle
  import opened KernelProof
  import opened Outputs

  datatype CompletionSource = Live | Recovery | DurableEvidence

  /** Session endpoint, kernel id and Jupyter session id; NULL columns are None. */
  datatype Identity = Identity(endpoint: Option<string>, kernel: Option<string>, jupyter: Option<string>)

  datatype StoreError =
    | ExecutionNotFound | InvalidTransition | OutputNotFinalized | OutputFinalized | InvalidEvidence
    | InvalidReconnect | SourceUnavailable | SourceCorrupt | IdempotencyConflict | ExecutionIdConflict
    | SessionNotFound | InvalidTimeout

  datatype Record = Record(
    session: string,
    key: Option<string>,
    requestHash: int,
    sourceDigest: int,
    sourceKept: bool,
    identity: Identity,
    messageId: Option<MsgId>,
    state: State,
    confirmed: bool,
    evidence: Evidence,
    errorValue: Option<string>,
    completion: Option<CompletionSource>,
    complete: bool,
    finalized: bool,
    timeout: Option<nat>,
    deadline: Option<nat>,
    cancelled: bool,
    requested: Option<State>,
    reconnects: nat,
    journal: seq<State>,
    outputs: seq<Output>)

  /** Stands for SHA-256; nothing depends on which function it is. */
  function Digest(data: Bytes): int {
    if data == [] then 7 else data[0] + 257 * Digest(data[1..])
  }

  /** Confirmed work that is not over. */
  predicate IsObserved(s: State) {
    s.Running? || s.Disconnected?
  }

  /** The transactions on an existing row. */
  datatype Op =
    | Begin(id: MsgId, via: Identity)
    | Confirm
    | Move(to: State, source: Option<CompletionSource>)
    | SaveEvidence(o: Observation)
    | Append(output: Output)
    | FinalizeOutput
    | MarkIncomplete
    | RequestCancel
    | RequestTimeout
    | CountReconnect

  function Entered(r: Record, s: State): Record {
    r.(state := s, journal := r.journal + [s])
  }

  function Apply(op: Op, r: Record, now: nat): Result<Record, StoreError> {
    match op
    case Begin(id, via) =>
      if r.state != Queued then Err(InvalidTransition)
      else Ok(Entered(r, Dispatching).(identity := via, messageId := Some(id)))
    case Confirm =>
      if r.state != Dispatching then Err(InvalidTransition)
      else
        var deadline := if r.timeout.Some? then Some(now + r.timeout.value) else None;
        Ok(Entered(r, Running).(confirmed := true, sourceKept := false, deadline := Coalesce(r.deadline, deadline)))
    case Move(to, source) =>
      if !Allows(r.state, to) then Err(InvalidTransition)
      else if IsTerminal(to) && !r.finalized then Err(OutputNotFinalized)
      else Ok(Entered(r, to).(sourceKept := r.sourceKept && !IsTerminal(to), completion := Coalesce(source, r.completion)))
    case SaveEvidence(o) =>
      if !IsObserved(r.state) then Err(InvalidEvidence)
      else Ok(r.(evidence := Recorded(r.evidence, o), errorValue := Coalesce(o.errorValue, r.errorValue)))
    case Append(output) =>
      if r.finalized then Err(OutputFinalized) else Ok(r.(outputs := r.outputs + [output]))
    case FinalizeOutput => Ok(r.(finalized := true))
    case MarkIncomplete => Ok(r.(complete := false))
    case RequestCancel =>
      if IsTerminal(r.state) then Ok(r)
      else if r.state == Queued then
        Ok(Entered(r, Interrupted).(cancelled := true, requested := Some(Interrupted), sourceKept := false,
                                    completion := Some(Live), finalized := true))
      else Ok(r.(cancelled := true, requested := Some(Interrupted)))
    case RequestTimeout =>
      if !IsObserved(r.state) then Ok(r) else Ok(r.(requested := Some(TimedOut)))
    case CountReconnect =>
      if r.state != Disconnected then Err(InvalidReconnect) else Ok(r.(reconnects := r.reconnects + 1))
  }

  function NewRecord(session: string, at: Identity, source: Bytes, requestHash: int, key: Option<string>, timeout: Option<nat>): Record {
    Record(session, key, requestHash, Digest(source), true, at, None, Queued, false, NoEvidence, None, None,
           true, false, timeout, None, false, None, 0, [Created, Queued], [])
  }

  /** The journal leads from creation to the state, and records whether a dispatch was begun. */
  predicate Journalled(journal: seq<State>, s: State, begun: bool) {
    && IsPath(journal) && NeverResumes(journal)
    && journal[|journal| - 1] == s
    && s != Created
    && (begun <==> Dispatching in journal)
  }

  /** What every row satisfies, whoever calls the transactions. */
  predicate Sound(r: Record) {
    && Journalled(r.journal, r.state, r.messageId.Some?)
    && (IsTerminal(r.state) ==> r.finalized && !r.sourceKept)
    && (IsObserved(r.state) ==> r.confirmed && !r.sourceKept)
    && (r.state.Finished? || r.state.Error? || r.state.TimedOut? ==> r.confirmed)
    && (r.confirmed ==> r.messageId.Some?)
    && (r.confirmed ==> !r.state.Queued? && !r.state.Dispatching?)
    && (r.deadline.Some? ==> r.timeout.Some? && r.confirmed)
    && (r.state.Queued? ==> !r.cancelled)
  }

  lemma NewRecordSound(session: string, at: Identity, source: Bytes, requestHash: int, key: Option<string>, timeout: Option<nat>)
    ensures Sound(NewRecord(session, at, source, requestHash, key, timeout))
  {
  }

  lemma ExtendPath(journal: seq<State>, from: State, to: State, begun: bool)
    requires Journalled(journal, from, begun)
    requires Allows(from, to)
    requires to == Running ==> from != Disconnected
    ensures Journalled(journal + [to], to, begun || to == Dispatching)
  {
    var extended := journal + [to];
    forall i | 0 < i < |extended|
      ensures Allows(extended[i - 1], extended[i])
      ensures extended[i] == Running ==> extended[i - 1] != Disconnected
    {
      if i < |journal| {
        assert Allows(journal[i - 1], journal[i]);
      }
    }
    assert Dispatching in extended <==> Dispatching in journal || to == Dispatching;
  }

  lemma BegunBefore(r: Record)
    requires Sound(r) && r.state == Dispatching
    ensures r.messageId.Some?
  {
    assert r.journal[|r.journal| - 1] == Dispatching;
  }

  /** The row is journalled as a path, and terminal rows are closed, after every transaction. */
  lemma ApplyKeepsSound(op: Op, r: Record, now: nat)
    requires Sound(r)
    requires op.Move? ==> !op.to.Dispatching? && !op.to.Running?
    ensures Apply(op, r, now).Ok? ==> Sound(Apply(op, r, now).value)
  {
    if Apply(op, r, now).Ok? && Apply(op, r, now).value.state != r.state {
      ExtendPath(r.journal, r.state, Apply(op, r, now).value.state, r.messageId.Some?);
      if op == Confirm {
        BegunBefore(r);
      }
    }
  }

  /** What no transaction can undo. */
  predicate Grows(r: Record, q: Record) {
    && r.journal <= q.journal
    && (IsTerminal(r.state) ==> q.state == r.state && q.outputs == r.outputs)
    && (!r.complete ==> !q.complete)
    && (r.finalized ==> q.finalized && q.outputs == r.outputs)
    && (r.confirmed ==> q.confirmed)
    && (r.cancelled ==> q.cancelled)
    && (!r.sourceKept ==> !q.sourceKept)
    && (r.messageId.Some? ==> q.messageId == r.messageId && q.identity == r.identity)
    && (r.deadline.Some? ==> q.deadline == r.deadline)
    && q.timeout == r.timeout && q.key == r.key && q.sourceDigest == r.sourceDigest && q.requestHash == r.requestHash
    && r.outputs <= q.outputs
  }

  lemma ApplyGrows(op: Op, r: Record, now: nat)
    requires Sound(r)
    ensures Apply(op, r, now).Ok? ==> Grows(r, Apply(op, r, now).value)
  {
    if r.state == Queued {
      NeverDispatched(r);
    }
  }

  /** When a transaction is refused, and as what. */
  lemma RefusedIff(op: Op, r: Record, now: nat)
    ensures Apply(op, r, now).Err?
            <==> match op
                 case Begin(_, _) => r.state != Queued
                 case Confirm => r.state != Dispatching
                 case Move(to, _) => !Allows(r.state, to) || (IsTerminal(to) && !r.finalized)
                 case SaveEvidence(_) => r.state != Running && r.state != Disconnected
                 case Append(_) => r.finalized
                 case CountReconnect => r.state != Disconnected
                 case _ => false
    ensures Apply(op, r, now) == Err(OutputNotFinalized) <==> op.Move? && Allows(r.state, op.to) && IsTerminal(op.to) && !r.finalized
    ensures Apply(op, r, now) == Err(OutputFinalized) <==> op.Append? && r.finalized
  {
  }

  /** How a transaction moves the row, and what it closes. */
  lemma Changes(op: Op, r: Record, now: nat)
    requires Apply(op, r, now).Ok?
    ensures var q := Apply(op, r, now).value;
            var drops := op.RequestCancel? && r.state == Queued;
            var moves := op.Begin? || op.Confirm? || op.Move? || drops;
            && q.journal == (if moves then r.journal + [q.state] else r.journal)
            && q.state == (match op case Begin(_, _) => Dispatching case Confirm => Running case Move(to, _) => to
                                    case _ => if drops then Interrupted else r.state)
            && q.finalized == (r.finalized || op.FinalizeOutput? || drops)
            && q.sourceKept == (r.sourceKept && !op.Confirm? && !(op.Move? && IsTerminal(op.to)) && !drops)
            && q.complete == (r.complete && !op.MarkIncomplete?)
  {
  }

  /** What is requested of an execution, and who is said to have ended it. */
  lemma Requests(op: Op, r: Record, now: nat)
    requires Apply(op, r, now).Ok?
    ensures var q := Apply(op, r, now).value;
            var cancels := op.RequestCancel? && !IsTerminal(r.state);
            var times := op.RequestTimeout? && (r.state == Running || r.state == Disconnected);
            && q.cancelled == (r.cancelled || cancels)
            && q.requested == (if cancels then Some(Interrupted) else if times then Some(TimedOut) else r.requested)
            && q.completion == (if op.RequestCancel? && r.state == Queued then Some(Live)
                                else if op.Move? && op.source.Some? then op.source else r.completion)
  {
    match op
    case RequestCancel =>
    case RequestTimeout =>
    case Move(_, _) =>
    case _ =>
  }

  lemma NeverDispatched(r: Record)
    requires Sound(r) && r.state == Queued
    ensures r.messageId.None?
  {
    if Dispatching in r.journal {
      var i :| 0 <= i < |r.journal| && r.journal[i] == Dispatching;
      PathRankStrict(r.journal, i, |r.journal| - 1);
    }
  }

  /** A result applied to the table of rows. */
  ghost predicate Applied(before: map<string, Record>, id: string, op: Op, now: nat,
                          result: Result<Record, StoreError>, after: map<string, Record>) {
    if id !in before then result == Err(ExecutionNotFound) && after == before
    else
      && result == Apply(op, before[id], now)
      && after == if result.Ok? then before[id := result.value] else before
  }

  /** What create_execution answers, and the rows afterwards. */
  ghost predicate Creates(before: map<string, Record>, sessions: map<string, Identity>,
                          id: string, session: string, source: Bytes, requestHash: int, key: Option<string>, timeout: Option<int>,
                          result: Result<string, StoreError>, after: map<string, Record>) {
    if timeout.Some? && timeout.value <= 0 then result == Err(InvalidTimeout) && after == before
    else if key.Some? && exists k <- before :: before[k].key == key then
      && after == before
      && exists k <- before :: before[k].key == key
                               && result == if before[k].requestHash == requestHash then Ok(k) else Err(IdempotencyConflict)
    else if id in before then result == Err(ExecutionIdConflict) && after == before
    else if session !in sessions then result == Err(SessionNotFound) && after == before
    else result == Ok(id) && after == before[id := NewRecord(session, sessions[session], source, requestHash, key, timeout)]
  }

  class DurableStore {
    var executions: map<string, Record>
    var sources: map<string, Bytes>
    var sessions: map<string, Identity>

    constructor (sessions: map<string, Identity>)
      ensures executions == map[] && sources == map[] && this.sessions == sessions
    {
      this.sessions := sessions;
      executions, sources := map[], map[];
    }

    method DiscardSource(id: string)
      modifies this`sources
      ensures sources == old(sources) - {id}
    {
      sources := sources - {id};
    }

    /** create_execution: an idempotency key names at most one execution, whatever its later state. */
    method CreateExecution(id: string, session: string, source: Bytes, requestHash: int, key: Option<string>, timeout: Option<int>)
      returns (result: Result<string, StoreError>)
      modifies this
      ensures sessions == old(sessions)
      ensures Creates(old(executions), sessions, id, session, source, requestHash, key, timeout, result, executions)
      ensures sources == if executions == old(executions) then old(sources) else old(sources)[id := source]
      ensures executions != old(executions) ==>
                && id !in old(executions) && id in executions && result == Ok(id) && session in sessions
                && var r := executions[id];
                   && r.state == Queued && r.journal == [Created, Queued] && r.session == session && r.identity == sessions[session]
                   && r.sourceKept && r.sourceDigest == Digest(source) && r.key == key && r.requestHash == requestHash
                   && (timeout.None? <==> r.timeout.None?) && (timeout.Some? ==> r.timeout.value == timeout.value > 0)
                   && r.complete && !r.finalized && r.outputs == [] && r.messageId.None? && !r.confirmed
                   && r.deadline.None? && r.requested.None? && !r.cancelled && r.evidence == NoEvidence && r.reconnects == 0
    {
      if timeout.Some? && timeout.value <= 0 {
        return Err(InvalidTimeout);
      }
      if key.Some? {
        if k :| k in executions && executions[k].key == key {
          if executions[k].requestHash != requestHash {
            return Err(IdempotencyConflict);
          }
          return Ok(k);
        }
      }
      if id in executions {
        return Err(ExecutionIdConflict);
      }
      if session !in sessions {
        return Err(SessionNotFound);
      }
      sources := sources[id := source];
      executions := executions[id := NewRecord(session, sessions[session], source, requestHash, key, timeout)];
      return Ok(id);
    }

    /** read_execution_source: only text that still matches its recorded digest is handed out. */
    method ReadSource(id: string) returns (result: Result<Bytes, StoreError>)
      ensures result.Ok? ==>
                && id in executions && executions[id].state == Queued && executions[id].sourceKept
                && id in sources && result.value == sources[id]
                && Digest(result.value) == executions[id].sourceDigest
      ensures result.Err? ==>
                || (result.error == ExecutionNotFound && id !in executions)
                || (result.error == SourceUnavailable && id in executions
                    && (executions[id].state != Queued || !executions[id].sourceKept || id !in sources))
                || (result.error == SourceCorrupt && id in executions && id in sources
                    && Digest(sources[id]) != executions[id].sourceDigest)
    {
      if id !in executions {
        return Err(ExecutionNotFound);
      }
      var record := executions[id];
      if record.state != Queued || !record.sourceKept {
        return Err(SourceUnavailable);
      }
      if id !in sources {
        return Err(SourceUnavailable);
      }
      if Digest(sources[id]) != record.sourceDigest {
        return Err(SourceCorrupt);
      }
      return Ok(sources[id]);
    }

    method BeginDispatch(id: string, message: MsgId, via: Identity) returns (result: Result<Record, StoreError>)
      modifies this`executions
      ensures Applied(old(executions), id, Begin(message, via), 0, result, executions)
    {
      if id !in executions {
        return Err(ExecutionNotFound);
      }
      var row := executions[id];
      if row.state != Queued {
        return Err(InvalidTransition);
      }
      row := row.(state := Dispatching, identity := via, messageId := Some(message));
      row := row.(journal := row.journal + [Dispatching]);
      executions := executions[id := row];
      return Ok(row);
    }

    method ConfirmDispatch(id: string, now: nat) returns (result: Result<Record, StoreError>)
      modifies this`executions, this`sources
      ensures Applied(old(executions), id, Confirm, now, result, executions)
      ensures sources == if result.Ok? then old(sources) - {id} else old(sources)
    {
      if id !in executions {
        return Err(ExecutionNotFound);
      }
      var row := executions[id];
      if row.state != Dispatching {
        return Err(InvalidTransition);
      }
      DiscardSource(id);
      if row.deadline.None? && row.timeout.Some? {
        row := row.(deadline := Some(now + row.timeout.value));
      }
      row := row.(state := Running, confirmed := true, sourceKept := false, journal := row.journal + [Running]);
      executions := executions[id := row];
      return Ok(row);
    }

    method TransitionExecution(id: string, to: State, source: Option<CompletionSource>, now: nat)
      returns (result: Result<Record, StoreError>)
      modifies this`executions, this`sources
      ensures Applied(old(executions), id, Move(to, source), now, result, executions)
      ensures sources == if result.Ok? && IsTerminal(to) then old(sources) - {id} else old(sources)
    {
      if id !in executions {
        return Err(ExecutionNotFound);
      }
      var row := executions[id];
      if !Allows(row.state, to) {
        return Err(InvalidTransition);
      }
      var discard := IsTerminal(to);
      if discard && !row.finalized {
        return Err(OutputNotFinalized);
      }
      if discard {
        DiscardSource(id);
        row := row.(sourceKept := false);
      }
      if source.Some? {
        row := row.(completion := source);
      }
      row := row.(state := to, journal := row.journal + [to]);
      executions := executions[id := row];
      return Ok(row);
    }

    method RecordEvidence(id: string, o: Observation, now: nat) returns (result: Result<Record, StoreError>)
      modifies this`executions
      ensures Applied(old(executions), id, SaveEvidence(o), now, result, executions)
    {
      if id !in executions {
        return Err(ExecutionNotFound);
      }
      var row := executions[id];
      if !IsObserved(row.state) {
        return Err(InvalidEvidence);
      }
      var v := row.evidence;
      var status := if o.reply && o.status.Some? then o.status else v.status;
      var name := if o.errorName.Some? then o.errorName else v.errorName;
      var lines := if o.traceback.Some? then o.traceback else v.traceback;
      var value := if o.errorValue.Some? then o.errorValue else row.errorValue;
      v := Evidence(v.reply || o.reply, v.idle || o.idle, status, name, lines);
      row := row.(evidence := v, errorValue := value);
      executions := executions[id := row];
      return Ok(row);
    }

    method AppendOutput(id: string, output: Output, now: nat) returns (result: Result<Record, StoreError>)
      modifies this`executions
      ensures Applied(old(executions), id, Append(output), now, result, executions)
    {
      if id !in executions {
        return Err(ExecutionNotFound);
      }
      var row := executions[id];
      if row.finalized {
        return Err(OutputFinalized);
      }
      row := row.(outputs := row.outputs + [output]);
      executions := executions[id := row];
      return Ok(row);
    }

    method Finalize(id: string, now: nat) returns (result: Result<Record, StoreError>)
      modifies this`executions
      ensures Applied(old(executions), id, FinalizeOutput, now, result, executions)
    {
      if id !in executions {
        return Err(ExecutionNotFound);
      }
      if !executions[id].finalized {
        executions := executions[id := executions[id].(finalized := true)];
      }
      return Ok(executions[id]);
    }

    method MarkOutputIncomplete(id: string, now: nat) returns (result: Result<Record, StoreError>)
      modifies this`executions
      ensures Applied(old(executions), id, MarkIncomplete, now, result, executions)
    {
      if id !in executions {
        return Err(ExecutionNotFound);
      }
      executions := executions[id := executions[id].(complete := false)];
      return Ok(executions[id]);
    }

    method RequestExecutionCancel(id: string, now: nat) returns (result: Result<Record, StoreError>)
      modifies this`executions, this`sources
      ensures Applied(old(executions), id, RequestCancel, now, result, executions)
      ensures sources == if id in old(executions) && old(executions)[id].state == Queued then old(sources) - {id} else old(sources)
    {
      if id !in executions {
        return Err(ExecutionNotFound);
      }
      var row := executions[id];
      if IsTerminal(row.state) {
        return Ok(row);
      }
      if row.state == Queued {
        DiscardSource(id);
        row := row.(state := Interrupted, journal := row.journal + [Interrupted], sourceKept := false);
        row := row.(completion := Some(Live), finalized := true);
      }
      row := row.(cancelled := true, requested := Some(Interrupted));
      executions := executions[id := row];
      return Ok(row);
    }

    method RequestExecutionTimeout(id: string, now: nat) returns (result: Result<Record, StoreError>)
      modifies this`executions
      ensures Applied(old(executions), id, RequestTimeout, now, result, executions)
    {
      if id !in executions {
        return Err(ExecutionNotFound);
      }
      var row := executions[id];
      if IsObserved(row.state) {
        row := row.(requested := Some(TimedOut));
        executions := executions[id := row];
      }
      return Ok(row);
    }

    method IncrementReconnectCount(id: string, now: nat) returns (result: Result<Record, StoreError>)
      modifies this`executions
      ensures Applied(old(executions), id, CountReconnect, now, result, executions)
    {
      if id !in executions {
        return Err(ExecutionNotFound);
      }
      var row := executions[id];
      if row.state != Disconnected {
        return Err(InvalidReconnect);
      }
      row := row.(reconnects := row.reconnects + 1);
      executions := executions[id := row];
      return Ok(row);
    }
  }
}

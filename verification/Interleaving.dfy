/**
 Shell and IOPub messages arrive on two queues. The reader drains them in some order that
 keeps each queue's own order; this module shows when that order can matter.
 */
module Interleaving {
  import opened Wrappers
  import opened Lifecycle
  import opened KernelProof
  import opened Outputs

  /** What a live observation ends with: the proof, whether it stopped, and the stored output. */
  datatype Outcome = Outcome(proof: ProofState, stopped: bool, outputs: seq<Output>)

  /** The observation loop on a fixed request: stop at the first terminal observation. */
  function Watch(p: ProofState, outs: seq<Output>, events: seq<KernelEvent>): Outcome
    decreases |events|
  {
    if events == [] then Outcome(p, false, outs)
    else
      var e := events[0];
      if !Matches(e, p.messageId) then Watch(p, outs, events[1..])
      else
        var q := Observed(p, e);
        if Verdict(q).Some? then Outcome(q, true, outs + Stored(e))
        else Watch(q, outs + Stored(e), events[1..])
  }

  /** m interleaves s and i, keeping the order of each, among messages that answer nobody or others. */
  ghost predicate IsMerge(id: MsgId, s: seq<KernelEvent>, i: seq<KernelEvent>, m: seq<KernelEvent>)
    decreases |m|
  {
    if m == [] then s == [] && i == []
    else
      || (s != [] && m[0] == s[0] && IsMerge(id, s[1..], i, m[1..]))
      || (i != [] && m[0] == i[0] && IsMerge(id, s, i[1..], m[1..]))
      || (!Matches(m[0], id) && IsMerge(id, s, i, m[1..]))
  }

  /** The two queues of a connected client; None stands for a value that is not an object. */
  datatype Queues = Queues(shell: seq<Option<Message>>, iopub: seq<Option<Message>>, preferShell: bool)

  function Serve(q: Queues, c: Channel): (Option<KernelEvent>, Queues) {
    if c == Shell && q.shell != [] then
      (if q.shell[0].Some? then Some(KernelEvent(Shell, q.shell[0].value)) else None, Queues(q.shell[1..], q.iopub, false))
    else if c == Iopub && q.iopub != [] then
      (if q.iopub[0].Some? then Some(KernelEvent(Iopub, q.iopub[0].value)) else None, Queues(q.shell, q.iopub[1..], true))
    else (None, q)
  }

  /** One round of the reader: the preferred queue, then the other. */
  function Taken(q: Queues): (Option<KernelEvent>, Queues) {
    var first := Serve(q, if q.preferShell then Shell else Iopub);
    if first.0.Some? then first else Serve(first.1, if q.preferShell then Iopub else Shell)
  }

  /** The single-reader adapter: it prefers the queue it did not serve last. */
  class Reader {
    var shell: seq<Option<Message>>
    var iopub: seq<Option<Message>>
    var preferShell: bool

    ghost function Value(): Queues
      reads this
    {
      Queues(shell, iopub, preferShell)
    }

    constructor (shell: seq<Option<Message>>, iopub: seq<Option<Message>>)
      ensures Value() == Queues(shell, iopub, false)
    {
      this.shell, this.iopub, preferShell := shell, iopub, false;
    }

    /** _take_ready_message: a queue head of the wrong type is dropped and the other queue is tried. */
    method Take() returns (event: Option<KernelEvent>)
      modifies this
      ensures (event, Value()) == Taken(old(Value()))
    {
      event := None;
      var order := if preferShell then [Shell, Iopub] else [Iopub, Shell];
      ghost var start := Value();
      for turn := 0 to 2
        invariant event.None?
        invariant order == if start.preferShell then [Shell, Iopub] else [Iopub, Shell]
        invariant turn == 0 ==> Value() == start
        invariant turn == 1 ==> (event, Value()) == Serve(start, order[0])
        invariant turn == 2 ==> Serve(start, order[0]).0.None? && (event, Value()) == Serve(Serve(start, order[0]).1, order[1])
      {
        if order[turn] == Shell && shell != [] {
          var head := shell[0];
          shell, preferShell := shell[1..], false;
          if head.Some? {
            return Some(KernelEvent(Shell, head.value));
          }
        } else if order[turn] == Iopub && iopub != [] {
          var head := iopub[0];
          iopub, preferShell := iopub[1..], true;
          if head.Some? {
            return Some(KernelEvent(Iopub, head.value));
          }
        }
      }
    }
  }

  /** Reading until both queues are empty. */
  function Drained(q: Queues): seq<KernelEvent>
    decreases |q.shell| + |q.iopub|
  {
    if q.shell == [] && q.iopub == [] then []
    else
      var (e, rest) := Taken(q);
      (if e.Some? then [e.value] else []) + Drained(rest)
  }

  function Events(c: Channel, queue: seq<Option<Message>>): seq<KernelEvent> {
    if queue == [] then []
    else (if queue[0].Some? then [KernelEvent(c, queue[0].value)] else []) + Events(c, queue[1..])
  }

  /** The reader loses and reorders nothing: what it hands out interleaves the two queues. */
  lemma {:induction false} DrainIsMerge(id: MsgId, q: Queues)
    ensures IsMerge(id, Events(Shell, q.shell), Events(Iopub, q.iopub), Drained(q))
    decreases |q.shell| + |q.iopub|
  {
    if q.shell != [] || q.iopub != [] {
      var (e, rest) := Taken(q);
      DrainIsMerge(id, rest);
      TakenSplits(q);
      if e.Some? {
        assert Drained(q) == [e.value] + Drained(rest);
        assert Drained(q)[1..] == Drained(rest);
        if e.value.channel == Shell {
          assert Events(Shell, q.shell)[1..] == Events(Shell, rest.shell);
        } else {
          assert Events(Iopub, q.iopub)[1..] == Events(Iopub, rest.iopub);
        }
      } else {
        assert Drained(q) == Drained(rest);
      }
    }
  }

  /** Neither queue is starved: with a message at the head of both, two rounds read one from each. */
  lemma ReaderAlternates(q: Queues)
    requires q.shell != [] && q.iopub != [] && q.shell[0].Some? && q.iopub[0].Some?
    ensures var (first, rest) := Taken(q);
            var (second, _) := Taken(rest);
            var shell, iopub := Some(KernelEvent(Shell, q.shell[0].value)), Some(KernelEvent(Iopub, q.iopub[0].value));
            if q.preferShell then first == shell && second == iopub else first == iopub && second == shell
  {
    var (first, rest) := Taken(q);
    assert rest == if q.preferShell then Queues(q.shell[1..], q.iopub, false) else Queues(q.shell, q.iopub[1..], true);
  }

  /** One event, or a dropped one, comes off the front of one queue. */
  lemma TakenSplits(q: Queues)
    requires q.shell != [] || q.iopub != []
    ensures var (e, rest) := Taken(q);
            if e.None? then Events(Shell, q.shell) == Events(Shell, rest.shell) && Events(Iopub, q.iopub) == Events(Iopub, rest.iopub)
            else if e.value.channel == Shell then
              Events(Shell, q.shell) == [e.value] + Events(Shell, rest.shell) && Events(Iopub, q.iopub) == Events(Iopub, rest.iopub)
            else
              Events(Shell, q.shell) == Events(Shell, rest.shell) && Events(Iopub, q.iopub) == [e.value] + Events(Iopub, rest.iopub)
  {
  }

  // ---------------------------------------------------------------- what each queue contributes

  /** The first valid reply on the shell queue. */
  function FirstReply(s: seq<KernelEvent>): Option<Content>
    ensures FirstReply(s).Some? ==> FirstReply(s).value.status.Known?
  {
    if s == [] then None
    else if IsValidReply(s[0]) then s[0].message.content
    else FirstReply(s[1..])
  }

  function ReplyName(s: seq<KernelEvent>): Option<string> {
    var r := FirstReply(s);
    if r.None? || r.value.status.status == ReplyOk then None else r.value.errorName
  }

  /** The last error name reported on IOPub. */
  function LastName(i: seq<KernelEvent>): Option<string> {
    if i == [] then None
    else Coalesce(LastName(i[1..]), if IsErrorReport(i[0]) then i[0].message.content.value.errorName else None)
  }

  /** All of s answers the request on the shell channel; all of i does on IOPub, and ends in the only idle. */
  predicate Conversation(id: MsgId, s: seq<KernelEvent>, i: seq<KernelEvent>) {
    && (forall e <- s :: Matches(e, id) && e.channel == Shell)
    && (forall e <- i :: Matches(e, id) && e.channel == Iopub)
    && FirstReply(s).Some?
    && i != []
    && (forall k :: 0 <= k < |i| ==> (IsIdle(i[k]) <==> k == |i| - 1))
  }

  /** The verdict a status and an error name lead to. */
  function Decide(status: ReplyStatus, name: Option<string>, requested: Option<State>): Option<State> {
    LiveVerdict(Evidence(true, true, Some(status), name, None), requested)
  }

  /** A state reached while watching: idle is the last IOPub message, and nothing is terminal yet. */
  predicate Pending(p: ProofState, s: seq<KernelEvent>, i: seq<KernelEvent>) {
    && (forall e <- s :: Matches(e, p.messageId) && e.channel == Shell)
    && (forall e <- i :: Matches(e, p.messageId) && e.channel == Iopub)
    && (p.evidence.reply <==> p.evidence.status.Some?)
    && (p.evidence.reply || FirstReply(s).Some?)
    && !(p.evidence.reply && p.evidence.idle)
    && (p.evidence.idle <==> i == [])
    && (forall k :: 0 <= k < |i| ==> (IsIdle(i[k]) <==> k == |i| - 1))
  }

  function StatusToCome(p: ProofState, s: seq<KernelEvent>): ReplyStatus
    requires p.evidence.status.Some? || FirstReply(s).Some?
  {
    if p.evidence.status.Some? then p.evidence.status.value else FirstReply(s).value.status.status
  }

  predicate NameToCome(p: ProofState, s: seq<KernelEvent>, i: seq<KernelEvent>, name: Option<string>) {
    var last := LastName(i);
    var fromReply := if p.evidence.reply then None else ReplyName(s);
    if last.Some? && fromReply.Some? then name == last || name == fromReply
    else name == Coalesce(last, Coalesce(fromReply, p.evidence.errorName))
  }

  /** What a terminal observation must look like from a pending state. */
  predicate Settles(p: ProofState, s: seq<KernelEvent>, i: seq<KernelEvent>, q: ProofState)
    requires p.evidence.status.Some? || FirstReply(s).Some?
  {
    && q.requested == p.requested
    && q.evidence.reply && q.evidence.idle
    && q.evidence.status == Some(StatusToCome(p, s))
    && NameToCome(p, s, i, q.evidence.errorName)
  }

  lemma ShellStep(p: ProofState, s: seq<KernelEvent>, i: seq<KernelEvent>)
    requires Pending(p, s, i) && s != []
    ensures Matches(s[0], p.messageId) && Stored(s[0]) == []
    ensures var q := Observed(p, s[0]);
            if Verdict(q).Some? then i == [] && Settles(p, s, i, q)
            else Pending(q, s[1..], i) && forall r | Settles(q, s[1..], i, r) :: Settles(p, s, i, r)
  {
    assert s[0] in s;
    var q := Observed(p, s[0]);
    if !Verdict(q).Some? {
      assert forall e <- s[1..] :: e in s;
      assert IsValidReply(s[0]) ==> q.evidence.reply;
      assert Pending(q, s[1..], i);
    }
  }

  lemma IopubStep(p: ProofState, s: seq<KernelEvent>, i: seq<KernelEvent>)
    requires Pending(p, s, i) && i != []
    ensures Matches(i[0], p.messageId)
    ensures var q := Observed(p, i[0]);
            if Verdict(q).Some? then i[1..] == [] && Settles(p, s, i, q)
            else Pending(q, s, i[1..]) && forall r | Settles(q, s, i[1..], r) :: Settles(p, s, i, r)
  {
    assert i[0] in i;
    var q := Observed(p, i[0]);
    assert IsIdle(i[0]) <==> |i| == 1;
    assert !IsValidReply(i[0]);
    if Verdict(q).Some? {
      assert i[1..] == [];
      assert LastName(i[1..]) == None;
    } else {
      assert forall e <- i[1..] :: e in i;
      assert forall k :: 0 <= k < |i| - 1 ==> i[1..][k] == i[k + 1];
      assert Pending(q, s, i[1..]);
    }
  }

  lemma {:induction false} WatchShell(p: ProofState, outs: seq<Output>, s: seq<KernelEvent>, i: seq<KernelEvent>, m: seq<KernelEvent>)
    requires Pending(p, s, i) && s != [] && m != [] && m[0] == s[0]
    requires IsMerge(p.messageId, s[1..], i, m[1..])
    ensures var o := Watch(p, outs, m);
            o.stopped && o.outputs == outs + StoredAll(i) && Settles(p, s, i, o.proof)
    decreases |m|, 0
  {
    ShellStep(p, s, i);
    var q := Observed(p, m[0]);
    assert outs + Stored(m[0]) == outs;
    if Verdict(q).None? {
      WatchMerge(q, outs, s[1..], i, m[1..]);
    }
  }

  lemma {:induction false} WatchIopub(p: ProofState, outs: seq<Output>, s: seq<KernelEvent>, i: seq<KernelEvent>, m: seq<KernelEvent>)
    requires Pending(p, s, i) && i != [] && m != [] && m[0] == i[0]
    requires IsMerge(p.messageId, s, i[1..], m[1..])
    ensures var o := Watch(p, outs, m);
            o.stopped && o.outputs == outs + StoredAll(i) && Settles(p, s, i, o.proof)
    decreases |m|, 0
  {
    IopubStep(p, s, i);
    var q := Observed(p, m[0]);
    assert outs + StoredAll(i) == outs + Stored(m[0]) + StoredAll(i[1..]);
    if Verdict(q).None? {
      WatchMerge(q, outs + Stored(m[0]), s, i[1..], m[1..]);
    }
  }

  lemma {:induction false} WatchMerge(p: ProofState, outs: seq<Output>, s: seq<KernelEvent>, i: seq<KernelEvent>, m: seq<KernelEvent>)
    requires Pending(p, s, i)
    requires IsMerge(p.messageId, s, i, m)
    ensures var o := Watch(p, outs, m);
            o.stopped && o.outputs == outs + StoredAll(i) && Settles(p, s, i, o.proof)
    decreases |m|, 1
  {
    var id := p.messageId;
    if m == [] {
      assert false;
    } else if s != [] && m[0] == s[0] && IsMerge(id, s[1..], i, m[1..]) {
      WatchShell(p, outs, s, i, m);
    } else if i != [] && m[0] == i[0] && IsMerge(id, s, i[1..], m[1..]) {
      WatchIopub(p, outs, s, i, m);
    } else {
      WatchMerge(p, outs, s, i, m[1..]);
    }
  }

  /** Whether the order of the two queues can change the verdict. */
  predicate OrderMatters(s: seq<KernelEvent>, i: seq<KernelEvent>, requested: Option<State>)
    requires FirstReply(s).Some?
  {
    && requested.Some?
    && FirstReply(s).value.status.status == ReplyError
    && LastName(i).Some? && ReplyName(s).Some?
    && IsInterruptError(LastName(i)) != IsInterruptError(ReplyName(s))
  }

  function Start(id: MsgId, requested: Option<State>): ProofState {
    Fresh(id).(requested := requested)
  }

  /** Every interleaving stops, and stores exactly the IOPub output in its order. */
  lemma StoredOutputIsOrderFree(id: MsgId, s: seq<KernelEvent>, i: seq<KernelEvent>, m: seq<KernelEvent>, requested: Option<State>)
    requires Conversation(id, s, i)
    requires IsMerge(id, s, i, m)
    ensures var o := Watch(Start(id, requested), [], m);
            o.stopped && Verdict(o.proof).Some? && o.outputs == StoredAll(i)
  {
    WatchMerge(Start(id, requested), [], s, i, m);
  }

  /**
   The verdict is the same for every interleaving exactly when the order does not matter in the
   sense above: two error names, one on each queue, that disagree about an interrupt.
   */
  lemma VerdictIsOrderFree(id: MsgId, s: seq<KernelEvent>, i: seq<KernelEvent>, requested: Option<State>)
    requires Conversation(id, s, i)
    requires requested in {None, Some(Interrupted), Some(TimedOut)}
    ensures (forall m, n | IsMerge(id, s, i, m) && IsMerge(id, s, i, n) ::
               Verdict(Watch(Start(id, requested), [], m).proof) == Verdict(Watch(Start(id, requested), [], n).proof))
            <==> !OrderMatters(s, i, requested)
  {
    if OrderMatters(s, i, requested) {
      ShellFirst(id, s, i, requested);
      IopubFirst(id, s, i, requested);
    } else {
      forall m, n | IsMerge(id, s, i, m) && IsMerge(id, s, i, n)
        ensures Verdict(Watch(Start(id, requested), [], m).proof) == Verdict(Watch(Start(id, requested), [], n).proof)
      {
        WatchMerge(Start(id, requested), [], s, i, m);
        WatchMerge(Start(id, requested), [], s, i, n);
      }
    }
  }

  lemma {:induction false} OnlyShell(id: MsgId, s: seq<KernelEvent>, m: seq<KernelEvent>)
    requires m == s
    ensures IsMerge(id, s, [], m)
    decreases |m|
  {
    if m != [] { OnlyShell(id, s[1..], m[1..]); }
  }

  lemma {:induction false} OnlyIopub(id: MsgId, i: seq<KernelEvent>, m: seq<KernelEvent>)
    requires m == i
    ensures IsMerge(id, [], i, m)
    decreases |m|
  {
    if m != [] { OnlyIopub(id, i[1..], m[1..]); }
  }

  lemma {:induction false} ShellThenIopub(id: MsgId, s: seq<KernelEvent>, i: seq<KernelEvent>)
    ensures IsMerge(id, s, i, s + i)
    decreases |s|
  {
    if s == [] {
      assert s + i == i;
      OnlyIopub(id, i, i);
    } else {
      assert (s + i)[1..] == s[1..] + i;
      ShellThenIopub(id, s[1..], i);
    }
  }

  lemma {:induction false} IopubThenShell(id: MsgId, s: seq<KernelEvent>, i: seq<KernelEvent>)
    ensures IsMerge(id, s, i, i + s)
    decreases |i|
  {
    if i == [] {
      assert i + s == s;
      OnlyShell(id, s, s);
    } else {
      assert (i + s)[1..] == i[1..] + s;
      IopubThenShell(id, s, i[1..]);
    }
  }

  /** Messages watched before a verdict is possible are simply absorbed. */
  lemma {:induction false} WatchAbsorbs(p: ProofState, outs: seq<Output>, xs: seq<KernelEvent>, ys: seq<KernelEvent>)
    requires forall e <- xs :: Matches(e, p.messageId)
    requires (!p.evidence.idle && forall e <- xs :: !IsIdle(e))
             || (!p.evidence.reply && forall e <- xs :: !IsValidReply(e))
    ensures Watch(p, outs, xs + ys) == Watch(ObserveAll(p, xs), outs + StoredAll(xs), ys)
    decreases |xs|
  {
    if xs == [] {
      assert xs + ys == ys && outs + StoredAll(xs) == outs;
    } else {
      assert (xs + ys)[1..] == xs[1..] + ys && xs[0] in xs;
      assert outs + Stored(xs[0]) + StoredAll(xs[1..]) == outs + StoredAll(xs);
      WatchAbsorbs(Observed(p, xs[0]), outs + Stored(xs[0]), xs[1..], ys);
    }
  }

  lemma {:induction false} ShellAbsorbed(p: ProofState, s: seq<KernelEvent>)
    requires forall e <- s :: Matches(e, p.messageId) && e.channel == Shell
    requires !p.evidence.reply && p.evidence.status.None?
    ensures var q := ObserveAll(p, s);
            && q.messageId == p.messageId && q.requested == p.requested && q.evidence.idle == p.evidence.idle
            && (q.evidence.reply <==> FirstReply(s).Some?)
            && (q.evidence.reply <==> q.evidence.status.Some?)
            && (FirstReply(s).Some? ==> q.evidence.status == Some(FirstReply(s).value.status.status)
                                        && q.evidence.errorName == Coalesce(ReplyName(s), p.evidence.errorName))
    decreases |s|
  {
    if s != [] {
      assert s[0] in s;
      var q := Observed(p, s[0]);
      if IsValidReply(s[0]) {
        RepliedIsSettled(q, s[1..]);
      } else {
        ShellAbsorbed(q, s[1..]);
      }
    }
  }

  lemma {:induction false} RepliedIsSettled(p: ProofState, s: seq<KernelEvent>)
    requires forall e <- s :: Matches(e, p.messageId) && e.channel == Shell
    requires p.evidence.reply
    ensures ObserveAll(p, s).evidence == p.evidence
    ensures ObserveAll(p, s).messageId == p.messageId && ObserveAll(p, s).requested == p.requested
    decreases |s|
  {
    if s != [] {
      assert s[0] in s;
      RepliedIsSettled(Observed(p, s[0]), s[1..]);
    }
  }

  lemma {:induction false} IopubAbsorbed(p: ProofState, i: seq<KernelEvent>)
    requires forall e <- i :: Matches(e, p.messageId) && e.channel == Iopub
    ensures var q := ObserveAll(p, i);
            && q.messageId == p.messageId && q.requested == p.requested
            && q.evidence.reply == p.evidence.reply && q.evidence.status == p.evidence.status
            && q.evidence.errorName == Coalesce(LastName(i), p.evidence.errorName)
            && (q.evidence.idle <==> p.evidence.idle || exists e <- i :: IsIdle(e))
    decreases |i|
  {
    if i != [] {
      assert i[0] in i;
      IopubAbsorbed(Observed(p, i[0]), i[1..]);
      assert forall e :: e in i <==> e == i[0] || e in i[1..];
    }
  }

  lemma ShellFirst(id: MsgId, s: seq<KernelEvent>, i: seq<KernelEvent>, requested: Option<State>)
    requires Conversation(id, s, i)
    requires LastName(i).Some?
    ensures IsMerge(id, s, i, s + i)
    ensures Verdict(Watch(Start(id, requested), [], s + i).proof)
            == Decide(FirstReply(s).value.status.status, LastName(i), requested)
  {
    ShellThenIopub(id, s, i);
    var p := Start(id, requested);
    WatchAbsorbs(p, [], s, i);
    ShellAbsorbed(p, s);
    var q := ObserveAll(p, s);
    OnlyIopub(id, i, i);
    WatchMerge(q, [] + StoredAll(s), [], i, i);
  }

  lemma IopubFirst(id: MsgId, s: seq<KernelEvent>, i: seq<KernelEvent>, requested: Option<State>)
    requires Conversation(id, s, i)
    requires ReplyName(s).Some?
    ensures IsMerge(id, s, i, i + s)
    ensures Verdict(Watch(Start(id, requested), [], i + s).proof)
            == Decide(FirstReply(s).value.status.status, ReplyName(s), requested)
  {
    IopubThenShell(id, s, i);
    var p := Start(id, requested);
    WatchAbsorbs(p, [], i, s);
    IopubAbsorbed(p, i);
    var q := ObserveAll(p, i);
    assert IsIdle(i[|i| - 1]) && i[|i| - 1] in i;
    OnlyShell(id, s, s);
    WatchMerge(q, [] + StoredAll(i), s, [], s);
  }
}

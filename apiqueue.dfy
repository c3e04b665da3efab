/**
 * The outbound request serializer `ApiQueue`: a FIFO backlog of tasks drained
 * one at a time, so that at most one request function is awaited at once.
 *
 * The class `ApiQueue` holds the source object's two fields, `queue` and
 * `processing`, plus two modelling fields: the promise counter and the task
 * held by the suspended `process` call. Its methods
 * are specified by the pure step functions `Admit`, `Drain`, `Settle` and
 * `Cleared` over a `QueueState` value, and the lemmas below prove what those
 * steps promise: FIFO start order, one task in flight, each started task
 * settled exactly once with its own outcome, cleared tasks never settled.
 */
module Queue {
  import opened Wrappers

  /** The promise `add` hands back, numbered in admission order. */
  type Promise = nat

  /** A backlog entry `{requestFn, resolve, reject}`: `request` stands for `requestFn`, `promise` for the resolve/reject pair. */
  datatype Task<R> = Task(promise: Promise, request: R)

  /** What `await requestFn()` produced: a value, or the error it threw. */
  datatype Outcome<V, E> = Resolved(value: V) | Rejected(error: E)

  /** One call of `resolve(result)` or `reject(error)` for a task. */
  datatype Settlement<R, V, E> = Settlement(task: Task<R>, outcome: Outcome<V, E>)

  /**
   * The queue's fields together with its observable history: `admitted` (every
   * task `add` created), `started` (every `requestFn` invocation, in order),
   * `settled` (every resolve/reject call, in order) and `dropped` (every task
   * `clear` discarded). `inFlight` is the task whose `requestFn` is being awaited.
   */
  datatype QueueState<R, V, E> = QueueState(
    backlog: seq<Task<R>>,
    processing: bool,
    inFlight: Option<Task<R>>,
    admitted: seq<Task<R>>,
    started: seq<Task<R>>,
    settled: seq<Settlement<R, V, E>>,
    dropped: seq<Task<R>>)

  /** Index in `admitted` of the first task still waiting in the backlog. */
  function BacklogStart<R, V, E>(s: QueueState<R, V, E>): int {
    |s.admitted| - |s.backlog|
  }

  /** The queue's invariant, kept by every operation. */
  ghost predicate Inv<R, V, E>(s: QueueState<R, V, E>) {
    var m := BacklogStart(s);
    // promises are numbered by admission, and the backlog is the newest tasks, oldest first
    && (forall k :: 0 <= k < |s.admitted| ==> s.admitted[k].promise == k)
    && 0 <= m && s.backlog == s.admitted[m..]
    // Draining exactly while a task is in flight; an idle queue has an empty backlog
    && (s.processing <==> s.inFlight.Some?)
    && (!s.processing ==> s.backlog == [])
    // tasks started in admission order, all of them admitted before the backlog
    && (forall i :: 0 <= i < |s.started| ==> s.started[i].promise < m && s.started[i] == s.admitted[s.started[i].promise])
    && (forall i, j :: 0 <= i < j < |s.started| ==> s.started[i].promise < s.started[j].promise)
    // every started task but the one in flight is settled, in start order
    && |s.settled| + (if s.inFlight.Some? then 1 else 0) == |s.started|
    && (forall i :: 0 <= i < |s.settled| ==> s.settled[i].task == s.started[i])
    && (s.inFlight.Some? ==> s.inFlight.value == s.started[|s.started| - 1])
    // discarded tasks came before the backlog and never started
    && (forall i :: 0 <= i < |s.dropped| ==> s.dropped[i].promise < m && s.dropped[i] == s.admitted[s.dropped[i].promise])
    && (forall i, j :: 0 <= i < |s.dropped| && 0 <= j < |s.started| ==> s.dropped[i].promise != s.started[j].promise)
  }

  /** A fresh queue: empty backlog, not processing, nothing happened yet. */
  function Initial<R, V, E>(): (s: QueueState<R, V, E>)
    ensures Inv(s) && Pending(s) == 0 && !s.processing
  {
    QueueState([], false, None, [], [], [], [])
  }

  /** The `length` getter: tasks not yet started. */
  function Pending<R, V, E>(s: QueueState<R, V, E>): nat {
    |s.backlog|
  }

  /**
   * `process()` up to its only suspension point: on an empty backlog it turns
   * `processing` off and stops; otherwise it turns it on, shifts the head off
   * the backlog and invokes its `requestFn`.
   */
  function Drain<R, V, E>(s: QueueState<R, V, E>): (r: QueueState<R, V, E>)
    ensures r.processing <==> s.backlog != []
    ensures r.admitted == s.admitted && r.settled == s.settled && r.dropped == s.dropped
  {
    if s.backlog == [] then s.(processing := false)
    else s.(processing := true, inFlight := Some(s.backlog[0]), backlog := s.backlog[1..],
            started := s.started + [s.backlog[0]])
  }

  /** The task `add(request)` creates. */
  function NewTask<R, V, E>(s: QueueState<R, V, E>, request: R): Task<R> {
    Task(|s.admitted|, request)
  }

  /** `add(request)`: push the task, then drain synchronously if no drain is running. */
  function Admit<R, V, E>(s: QueueState<R, V, E>, request: R): (r: QueueState<R, V, E>)
    ensures r.processing && r.admitted == s.admitted + [NewTask(s, request)]
    ensures r.settled == s.settled && r.dropped == s.dropped
  {
    var t := NewTask(s, request);
    var pushed := s.(backlog := s.backlog + [t], admitted := s.admitted + [t]);
    if s.processing then pushed else Drain(pushed)
  }

  /** The in-flight task's `requestFn` completed: settle its promise, then continue draining. */
  function Settle<R, V, E>(s: QueueState<R, V, E>, outcome: Outcome<V, E>): (r: QueueState<R, V, E>)
    requires s.inFlight.Some?
    ensures r.settled == s.settled + [Settlement(s.inFlight.value, outcome)]
    ensures r.admitted == s.admitted && r.dropped == s.dropped && (r.processing <==> s.backlog != [])
  {
    Drain(s.(settled := s.settled + [Settlement(s.inFlight.value, outcome)], inFlight := None))
  }

  /** `clear()`: forget the backlog; the discarded promises are never settled. */
  function Cleared<R, V, E>(s: QueueState<R, V, E>): (r: QueueState<R, V, E>)
    ensures r.backlog == [] && r.dropped == s.dropped + s.backlog
    ensures r.processing == s.processing && r.inFlight == s.inFlight && r.started == s.started
  {
    s.(backlog := [], dropped := s.dropped + s.backlog)
  }

  /** Pushing a new task keeps every part of the invariant that does not mention `processing`. */
  lemma PushSpec<R, V, E>(s: QueueState<R, V, E>, request: R)
    requires Inv(s)
    ensures var t := NewTask(s, request);
      var p := s.(backlog := s.backlog + [t], admitted := s.admitted + [t]);
      && BacklogStart(p) == BacklogStart(s)
      && p.backlog == p.admitted[BacklogStart(p)..]
      && (forall k :: 0 <= k < |p.admitted| ==> p.admitted[k].promise == k)
      && (forall i :: 0 <= i < |p.started| ==> p.started[i] == p.admitted[p.started[i].promise])
      && (forall i :: 0 <= i < |p.dropped| ==> p.dropped[i] == p.admitted[p.dropped[i].promise])
  {
    var t := NewTask(s, request);
    var m := BacklogStart(s);
    assert (s.admitted + [t])[m..] == s.admitted[m..] + [t];
  }

  /** On an idle queue, the pushed task starts at once. */
  lemma DrainAfterPush<R, V, E>(s: QueueState<R, V, E>, request: R)
    requires Inv(s) && !s.processing
    ensures var t := NewTask(s, request);
      var r := Drain(s.(backlog := s.backlog + [t], admitted := s.admitted + [t]));
      Inv(r) && r.backlog == [] && r.inFlight == Some(t) && r.started == s.started + [t]
  {
    var t := NewTask(s, request);
    var p := s.(backlog := s.backlog + [t], admitted := s.admitted + [t]);
    assert BacklogStart(s) == |s.admitted| && s.inFlight.None?;
    var r := p.(processing := true, inFlight := Some(t), backlog := [], started := s.started + [t]);
    assert Drain(p) == r;
    assert forall k :: 0 <= k < |s.admitted| ==> r.admitted[k] == s.admitted[k];
  }

  /**
   * `add` keeps the invariant. On a busy queue the task waits at the tail; on an
   * idle one it starts at once, so `length` is 0 right after the call. Nothing
   * is settled by `add`.
   */
  lemma AdmitSpec<R, V, E>(s: QueueState<R, V, E>, request: R)
    requires Inv(s)
    ensures var r := Admit(s, request); var t := NewTask(s, request);
      && Inv(r)
      && t.promise == |s.admitted| && r.admitted == s.admitted + [t]
      && r.processing && r.settled == s.settled && r.dropped == s.dropped
      && (s.processing ==> r.backlog == s.backlog + [t] && r.started == s.started && r.inFlight == s.inFlight)
      && (!s.processing ==> Pending(r) == 0 && r.inFlight == Some(t) && r.started == s.started + [t])
  {
    PushSpec(s, request);
    if !s.processing {
      DrainAfterPush(s, request);
    }
  }

  /**
   * Completion of the in-flight task keeps the invariant, settles exactly that
   * task with exactly the given outcome, and, whether it resolved or rejected,
   * starts the next task if one is waiting or goes idle otherwise.
   */
  lemma SettleSpec<R, V, E>(s: QueueState<R, V, E>, outcome: Outcome<V, E>)
    requires Inv(s) && s.inFlight.Some?
    ensures var r := Settle(s, outcome);
      && Inv(r)
      && r.settled == s.settled + [Settlement(s.inFlight.value, outcome)]
      && r.admitted == s.admitted && r.dropped == s.dropped
      && (s.backlog == [] ==> !r.processing && r.inFlight.None? && r.started == s.started)
      && (s.backlog != [] ==> r.processing && r.inFlight == Some(s.backlog[0])
                              && r.backlog == s.backlog[1..] && r.started == s.started + [s.backlog[0]])
  {
  }

  /** `clear` empties the backlog and touches neither `processing` nor the in-flight task. */
  lemma ClearedSpec<R, V, E>(s: QueueState<R, V, E>)
    requires Inv(s)
    ensures var r := Cleared(s);
      && Inv(r) && Pending(r) == 0
      && r.processing == s.processing && r.inFlight == s.inFlight
      && r.started == s.started && r.settled == s.settled && r.dropped == s.dropped + s.backlog
  {
  }

  /**
   * No task is skipped: every task admitted before the backlog was started or
   * discarded by `clear`, and while nothing was ever discarded the started
   * tasks are exactly the admitted ones before the backlog, in order.
   */
  ghost predicate Accounted<R, V, E>(s: QueueState<R, V, E>) {
    var m := BacklogStart(s);
    && 0 <= m <= |s.admitted|
    && (forall k :: 0 <= k < m ==> s.admitted[k] in s.started || s.admitted[k] in s.dropped)
    && (s.dropped == [] ==> s.started == s.admitted[..m])
  }

  lemma AdmitAccounted<R, V, E>(s: QueueState<R, V, E>, request: R)
    requires Inv(s) && Accounted(s)
    ensures Accounted(Admit(s, request))
  {
    AdmitSpec(s, request);
    var t, m := NewTask(s, request), BacklogStart(s);
    var r := Admit(s, request);
    assert forall k :: 0 <= k < |s.admitted| ==> r.admitted[k] == s.admitted[k];
    if s.processing {
      assert BacklogStart(r) == m;
      assert r.admitted[..m] == s.admitted[..m];
    } else {
      assert m == |s.admitted| && BacklogStart(r) == m + 1;
      assert r.admitted[..m + 1] == s.admitted[..m] + [t];
      assert r.admitted[m] == t && t in r.started;
    }
  }

  lemma SettleAccounted<R, V, E>(s: QueueState<R, V, E>, outcome: Outcome<V, E>)
    requires Inv(s) && Accounted(s) && s.inFlight.Some?
    ensures Accounted(Settle(s, outcome))
  {
    SettleSpec(s, outcome);
    var m := BacklogStart(s);
    var r := Settle(s, outcome);
    if s.backlog != [] {
      assert s.admitted[m] == s.backlog[0] && BacklogStart(r) == m + 1;
      assert s.admitted[..m + 1] == s.admitted[..m] + [s.admitted[m]];
      assert s.backlog[0] in r.started;
    }
  }

  lemma ClearedAccounted<R, V, E>(s: QueueState<R, V, E>)
    requires Inv(s) && Accounted(s)
    ensures Accounted(Cleared(s))
  {
    var m := BacklogStart(s);
    var r := Cleared(s);
    assert BacklogStart(r) == |s.admitted|;
    forall k | m <= k < |s.admitted|
      ensures s.admitted[k] in r.dropped
    {
      assert s.admitted[k] == s.backlog[k - m];
    }
    if r.dropped == [] {
      assert s.backlog == [] && m == |s.admitted|;
    }
  }

  /** What can happen to a queue: a call of `add`, the completion of the awaited request, a call of `clear`. */
  datatype Event<R, V, E> = Submit(request: R) | Complete(outcome: Outcome<V, E>) | ClearAll

  /** One event; a completion with nothing in flight cannot occur and changes nothing. */
  function Step<R, V, E>(s: QueueState<R, V, E>, e: Event<R, V, E>): QueueState<R, V, E> {
    match e
    case Submit(request) => Admit(s, request)
    case Complete(outcome) => if s.inFlight.Some? then Settle(s, outcome) else s
    case ClearAll => Cleared(s)
  }

  /** The state after a sequence of events. */
  function Run<R, V, E>(s: QueueState<R, V, E>, events: seq<Event<R, V, E>>): QueueState<R, V, E>
    decreases |events|
  {
    if events == [] then s else Run(Step(s, events[0]), events[1..])
  }

  /** One event only ever extends the histories. */
  lemma StepSpec<R, V, E>(s: QueueState<R, V, E>, e: Event<R, V, E>)
    requires Inv(s)
    ensures var r := Step(s, e);
      && Inv(r)
      && s.admitted <= r.admitted && s.started <= r.started
      && s.settled <= r.settled && s.dropped <= r.dropped
      && (!e.ClearAll? ==> r.dropped == s.dropped)
  {
    match e
    case Submit(request) => AdmitSpec(s, request);
    case Complete(outcome) => if s.inFlight.Some? { SettleSpec(s, outcome); }
    case ClearAll => ClearedSpec(s);
  }

  /** One event never skips a task. */
  lemma StepAccounted<R, V, E>(s: QueueState<R, V, E>, e: Event<R, V, E>)
    requires Inv(s) && Accounted(s)
    ensures Accounted(Step(s, e))
  {
    match e
    case Submit(request) => AdmitAccounted(s, request);
    case Complete(outcome) => if s.inFlight.Some? { SettleAccounted(s, outcome); }
    case ClearAll => ClearedAccounted(s);
  }

  /** Every state reachable by any sequence of events satisfies the invariant; histories only grow. */
  lemma {:induction false} RunSpec<R, V, E>(s: QueueState<R, V, E>, events: seq<Event<R, V, E>>)
    requires Inv(s)
    ensures var r := Run(s, events);
      && Inv(r)
      && s.admitted <= r.admitted && s.started <= r.started
      && s.settled <= r.settled && s.dropped <= r.dropped
      && ((forall i :: 0 <= i < |events| ==> !events[i].ClearAll?) ==> r.dropped == s.dropped)
    decreases |events|
  {
    if events != [] {
      StepSpec(s, events[0]);
      RunSpec(Step(s, events[0]), events[1..]);
      assert forall i :: 0 <= i < |events[1..]| ==> events[1..][i] == events[i + 1];
    }
  }

  /** No sequence of events skips a task. */
  lemma {:induction false} RunAccounted<R, V, E>(s: QueueState<R, V, E>, events: seq<Event<R, V, E>>)
    requires Inv(s) && Accounted(s)
    ensures Accounted(Run(s, events))
    decreases |events|
  {
    if events != [] {
      StepSpec(s, events[0]);
      StepAccounted(s, events[0]);
      RunAccounted(Step(s, events[0]), events[1..]);
    }
  }

  /**
   * The serializer's guarantees, for whatever the callers and the network do:
   * tasks start in the order they were added, at most one is in flight, the
   * settlements follow the start order with one settlement per started task, a
   * cleared task never starts, and an idle queue has an empty backlog.
   */
  lemma {:induction false} Guarantees<R, V, E>(events: seq<Event<R, V, E>>)
    ensures var r := Run(Initial<R, V, E>(), events);
      && (forall i, j :: 0 <= i < j < |r.started| ==> r.started[i].promise < r.started[j].promise)
      && (forall i :: 0 <= i < |r.started| ==> r.started[i].promise < |r.admitted| && r.started[i] == r.admitted[r.started[i].promise])
      && |r.started| - |r.settled| == (if r.inFlight.Some? then 1 else 0)
      && (forall i :: 0 <= i < |r.settled| ==> r.settled[i].task == r.started[i])
      && (forall i, j :: 0 <= i < |r.dropped| && 0 <= j < |r.started| ==> r.dropped[i].promise != r.started[j].promise)
      && (!r.processing ==> Pending(r) == 0)
      && |r.backlog| <= |r.admitted| && r.backlog == r.admitted[|r.admitted| - |r.backlog|..]
      && (forall k :: 0 <= k < |r.admitted| - |r.backlog| ==> r.admitted[k] in r.started || r.admitted[k] in r.dropped)
      && ((forall i :: 0 <= i < |events| ==> !events[i].ClearAll?) ==>
            r.dropped == [] && |r.started| <= |r.admitted| && r.started == r.admitted[..|r.started|])
  {
    assert Accounted(Initial<R, V, E>());
    RunSpec(Initial<R, V, E>(), events);
    RunAccounted(Initial<R, V, E>(), events);
  }

  /** A failing task does not stop the queue: after a rejection the next waiting task starts. */
  lemma {:induction false} RejectionContinues<R, V, E>(s: QueueState<R, V, E>, error: E)
    requires Inv(s) && s.inFlight.Some? && s.backlog != []
    ensures var r := Settle(s, Rejected(error));
      r.inFlight == Some(s.backlog[0]) && r.settled[|r.settled| - 1] == Settlement(s.inFlight.value, Rejected(error))
  {
    SettleSpec(s, Rejected(error));
  }

  /**
   * The queue object. `queue` and `processing` are the source's two fields.
   * `issued` numbers the promises `add` hands back, standing for their identity,
   * and `inFlight` is the task the suspended `process` call holds in a local
   * variable; neither is a field of the source. The ghost fields record what
   * has been observed.
   */
  class ApiQueue<R, V, E> {
    var queue: seq<Task<R>>
    var processing: bool
    var inFlight: Option<Task<R>>
    var issued: nat
    ghost var admitted: seq<Task<R>>
    ghost var started: seq<Task<R>>
    ghost var settled: seq<Settlement<R, V, E>>
    ghost var dropped: seq<Task<R>>

    ghost function State(): QueueState<R, V, E>
      reads this
    {
      QueueState(queue, processing, inFlight, admitted, started, settled, dropped)
    }

    ghost predicate Valid()
      reads this
    {
      issued == |admitted| && Inv(State())
    }

    constructor ()
      ensures Valid() && State() == Initial()
      ensures queue == [] && !processing && inFlight.None? && issued == 0 && settled == []
    {
      queue, processing, inFlight, issued := [], false, None, 0;
      admitted, started, settled, dropped := [], [], [], [];
    }

    /** `add(requestFn)`: returns the new task's promise. */
    method Add(request: R) returns (p: Promise)
      requires Valid()
      modifies this
      ensures Valid() && State() == Admit(old(State()), request)
      ensures p == old(issued) && issued == old(issued) + 1 && processing && settled == old(settled)
      ensures old(processing) ==> queue == old(queue) + [Task(p, request)] && inFlight == old(inFlight)
      ensures !old(processing) ==> queue == [] && inFlight == Some(Task(p, request))
    {
      AdmitSpec(State(), request);
      var t := Task(issued, request);
      p := issued;
      queue := queue + [t];
      admitted := admitted + [t];
      issued := issued + 1;
      if !processing {
        Process();
      }
    }

    /** `process()` up to `await requestFn()`. */
    method Process()
      modifies this
      ensures State() == Drain(old(State())) && issued == old(issued)
    {
      if |queue| == 0 {
        processing := false;
        return;
      }
      processing := true;
      var head := queue[0];
      queue := queue[1..];
      inFlight := Some(head);
      started := started + [head];
    }

    /**
     * The rest of `process()` once `await requestFn()` returns or throws: call
     * `resolve` or `reject` of the in-flight task, then process the next one.
     */
    method Resume(outcome: Outcome<V, E>)
      requires Valid() && inFlight.Some?
      modifies this
      ensures Valid() && State() == Settle(old(State()), outcome) && issued == old(issued)
      ensures settled == old(settled) + [Settlement(old(inFlight.value), outcome)]
      ensures old(queue) == [] ==> !processing && inFlight.None?
      ensures old(queue) != [] ==> inFlight == Some(old(queue[0])) && queue == old(queue[1..])
    {
      SettleSpec(State(), outcome);
      settled := settled + [Settlement(inFlight.value, outcome)];
      inFlight := None;
      Process();
    }

    /** `clear()`. */
    method Clear()
      requires Valid()
      modifies this
      ensures Valid() && State() == Cleared(old(State())) && issued == old(issued)
    {
      ClearedSpec(State());
      dropped := dropped + queue;
      queue := [];
    }

    /** The `length` getter. */
    function Length(): (n: nat)
      reads this
      ensures n == Pending(State())
    {
      |queue|
    }
  }

  /** `add` on an idle queue starts the task before returning, so `length` reads 0, not 1. */
  method AddOnIdleQueue() {
    var q := new ApiQueue<string, string, string>();
    var p := q.Add("T1");
    assert q.Length() == 0 && q.processing && q.inFlight == Some(Task(p, "T1"));
    q.Resume(Rejected("boom"));
    assert !q.processing && q.settled == [Settlement(Task(p, "T1"), Rejected("boom"))];
    var p' := q.Add("T2");
    assert q.Length() == 0 && q.inFlight == Some(Task(p', "T2"));
  }

  /** A submission while a request is in flight waits behind it: `length` reads 1. */
  method SubmissionWhileBusy() {
    var q := new ApiQueue<string, string, string>();
    var p1 := q.Add("T1");
    var p2 := q.Add("T2");
    assert q.Length() == 1;
    assert q.queue == [Task(p2, "T2")];
    assert q.inFlight == Some(Task(p1, "T1"));
  }


}

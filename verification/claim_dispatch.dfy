/** Claims and the actor pool together. The pool is shared and outlives the claims, which come and go
    with rebalances; each claim runs its own pipeline, and every message it receives is submitted to
    the pool. The end of a handler call writes the answer that the claim's bridge waits for. */
module ClaimDispatch {
  import opened ActorPool
  import D = KeyedDispatch
  import P = PipelineModel
  import I = PipelineInvariants

  /** A claim and what has happened in it so far. */
  datatype Run = Run(window: nat, hasDlq: bool, log: seq<P.Message>, events: seq<P.Event>)

  /** A handler call that has ended, and what it answered. */
  datatype Answer = Answer(message: Message, outcome: P.Outcome)

  /** `counter` is the round-robin counter; `answers` is the history of the ended calls. */
  datatype System = System(claims: seq<Run>, pool: D.Sys<Message>, counter: nat, answers: seq<Answer>)

  datatype Event =
    | Open(window: nat, hasDlq: bool, log: seq<P.Message>)      // a new claim
    | Step(q: nat, e: P.Event, fits: bool)                      // a step of claim q, other than a handler's answer
    | Begin(w: nat)                                             // an actor begins a handler call
    | Finish(w: nat, outcome: P.Outcome)                        // ... and ends it with an answer

  ghost function State(r: Run): P.Claim {
    P.Exec(P.Init(r.window, r.hasDlq, r.log), r.events)
  }

  ghost predicate Enabled(s: System, e: Event) {
    match e
    case Open(window, _, log) => window > 0 && I.Increasing(log)
    case Step(q, e, _) => q < |s.claims| && !e.HandlerDone? && P.Enabled(State(s.claims[q]), e)
    case Begin(w) => w < |s.pool.workers| && s.pool.workers[w].current.None? && s.pool.workers[w].inbox != []
    case Finish(w, _) => w < |s.pool.workers| && s.pool.workers[w].current.Some?
  }

  function Took(s: System, q: nat, e: P.Event): System
    requires q < |s.claims|
  {
    s.(claims := s.claims[q := s.claims[q].(events := s.claims[q].events + [e])])
  }

  /** The message that a claim submits when it receives: its aggregate is its key, and without one it
      gets the next round-robin key. */
  function Submission(aggregate: (nat, nat) -> Bytes, s: System, q: nat, offset: nat): Message {
    Message(RoutingKey(aggregate(q, offset), s.counter + 1), q, offset)
  }

  ghost function Receive(aggregate: (nat, nat) -> Bytes, s: System, poolSize: nat, q: nat, fits: bool): System
    requires poolSize > 0 && q < |s.claims| && State(s.claims[q]).read < |State(s.claims[q]).log|
  {
    var c := State(s.claims[q]);
    var offset := c.log[c.read].offset;
    Took(s, q, P.Receive).(pool := D.Apply(s.pool, Route(poolSize), D.Submit(Submission(aggregate, s, q, offset), fits)),
                           counter := if aggregate(q, offset) == [] then s.counter + 1 else s.counter)
  }

  ghost function Fire(aggregate: (nat, nat) -> Bytes, s: System, poolSize: nat, e: Event): System
    requires poolSize > 0 && Enabled(s, e)
  {
    match e
    case Open(window, hasDlq, log) => s.(claims := s.claims + [Run(window, hasDlq, log, [])])
    case Step(q, e, fits) => if e.Receive? then Receive(aggregate, s, poolSize, q, fits) else Took(s, q, e)
    case Begin(w) => s.(pool := D.Apply(s.pool, Route(poolSize), D.Begin(w)))
    case Finish(w, outcome) =>
      var m := s.pool.workers[w].current.value;
      var s' := s.(pool := D.Apply(s.pool, Route(poolSize), D.End(w)), answers := s.answers + [Answer(m, outcome)]);
      if m.claim < |s.claims| then Took(s', m.claim, P.HandlerDone(m.offset, outcome)) else s'
  }

  ghost function Apply(aggregate: (nat, nat) -> Bytes, s: System, poolSize: nat, e: Event): System
    requires poolSize > 0
  {
    if Enabled(s, e) then Fire(aggregate, s, poolSize, e) else s
  }

  ghost function Exec(aggregate: (nat, nat) -> Bytes, s: System, poolSize: nat, schedule: seq<Event>): System
    requires poolSize > 0
    decreases |schedule|
  {
    if schedule == [] then s else Exec(aggregate, Apply(aggregate, s, poolSize, schedule[0]), poolSize, schedule[1..])
  }

  function Init(poolSize: nat): System {
    System([], D.Init(poolSize), 0, [])
  }

  // ---------------------------------------------------------------- the invariant

  /** What claim q has submitted is what it has received, message by message. */
  ghost predicate SubmitsReceived(aggregate: (nat, nat) -> Bytes, submitted: seq<Message>, q: nat, c: P.Claim) {
    var mine := D.Select(OfClaim(q), submitted);
    && |mine| == c.read <= |c.log|
    && forall i :: 0 <= i < c.read ==>
         mine[i].offset == c.log[i].offset && (aggregate(q, mine[i].offset) != [] ==> mine[i].key == aggregate(q, mine[i].offset))
  }

  ghost predicate RunOk(r: Run) {
    r.window > 0 && I.Increasing(r.log)
  }

  ghost predicate Inv(aggregate: (nat, nat) -> Bytes, s: System, poolSize: nat)
    requires poolSize > 0
  {
    && |s.pool.workers| == poolSize && D.Inv(s.pool, Route(poolSize))
    && (forall q :: 0 <= q < |s.claims| ==> RunOk(s.claims[q]) && SubmitsReceived(aggregate, s.pool.submitted, q, State(s.claims[q])))
    && (forall k :: 0 <= k < |s.pool.submitted| ==> s.pool.submitted[k].claim < |s.claims|)
  }

  lemma {:induction false} ExecSnoc(c: P.Claim, events: seq<P.Event>, e: P.Event)
    ensures P.Exec(c, events + [e]) == P.Apply(P.Exec(c, events), e)
    decreases |events|
  {
    if events == [] {
      assert (events + [e])[1..] == [];
    } else {
      assert (events + [e])[0] == events[0] && (events + [e])[1..] == events[1..] + [e];
      ExecSnoc(P.Apply(c, events[0]), events[1..], e);
    }
  }

  lemma LogStays(r: Run)
    ensures State(r).log == r.log
  {
    I.ExecConstants(P.Init(r.window, r.hasDlq, r.log), r.events);
  }

  /** One step of one claim: only receiving changes what has been received. */
  lemma TookState(s: System, q: nat, e: P.Event)
    requires q < |s.claims| && RunOk(s.claims[q])
    ensures var r := Took(s, q, e).claims[q];
            && RunOk(r) && State(r) == P.Apply(State(s.claims[q]), e) && State(r).log == State(s.claims[q]).log
            && State(r).read == State(s.claims[q]).read + (if e.Receive? && P.Enabled(State(s.claims[q]), e) then 1 else 0)
  {
    var r := s.claims[q];
    ExecSnoc(P.Init(r.window, r.hasDlq, r.log), r.events, e);
    LogStays(r);
    LogStays(Took(s, q, e).claims[q]);
    if P.Enabled(State(r), e) {
      ReadOnlyByReceive(State(r), e);
    }
  }

  lemma ReadOnlyByReceive(c: P.Claim, e: P.Event)
    requires P.Enabled(c, e)
    ensures P.Fire(c, e).read == c.read + if e.Receive? then 1 else 0
  {
    match e
    case TakeCompletion => I.CompletionConstants(c); assert P.OnCompletion(c).read == c.read;
    case TakeDlqResult => I.DlqResultConstants(c); assert P.OnDlqResult(c).read == c.read;
    case _ =>
  }

  lemma TookKeeps(aggregate: (nat, nat) -> Bytes, s: System, poolSize: nat, q: nat, e: P.Event)
    requires poolSize > 0 && Inv(aggregate, s, poolSize) && q < |s.claims| && !(e.Receive? && P.Enabled(State(s.claims[q]), e))
    ensures Inv(aggregate, Took(s, q, e), poolSize)
  {
    TookState(s, q, e);
    var s' := Took(s, q, e);
    forall p | 0 <= p < |s'.claims|
      ensures RunOk(s'.claims[p]) && SubmitsReceived(aggregate, s'.pool.submitted, p, State(s'.claims[p]))
    {
      assert RunOk(s.claims[p]) && SubmitsReceived(aggregate, s.pool.submitted, p, State(s.claims[p]));
    }
  }

  /** A submission belongs to the claim that made it and to no other. */
  lemma SubmissionCounts(aggregate: (nat, nat) -> Bytes, submitted: seq<Message>, m: Message, q: nat, c: P.Claim)
    requires SubmitsReceived(aggregate, submitted, q, c)
    ensures m.claim != q ==> SubmitsReceived(aggregate, submitted + [m], q, c)
    ensures m.claim == q && c.read < |c.log| && m.offset == c.log[c.read].offset
            && (aggregate(q, m.offset) != [] ==> m.key == aggregate(q, m.offset)) ==>
              SubmitsReceived(aggregate, submitted + [m], q, c.(read := c.read + 1))
  {
    D.SelectAppend(OfClaim(q), submitted, m);
  }

  lemma SubmitsDependsOn(aggregate: (nat, nat) -> Bytes, submitted: seq<Message>, q: nat, c: P.Claim, c': P.Claim)
    requires SubmitsReceived(aggregate, submitted, q, c) && c'.read == c.read && c'.log == c.log
    ensures SubmitsReceived(aggregate, submitted, q, c')
  {
  }

  /** What receiving means for any one claim. */
  lemma ReceiveClaim(aggregate: (nat, nat) -> Bytes, s: System, q: nat, p: nat, m: Message)
    requires q < |s.claims| && p < |s.claims| && P.Enabled(State(s.claims[q]), P.Receive)
    requires RunOk(s.claims[q]) && RunOk(s.claims[p]) && SubmitsReceived(aggregate, s.pool.submitted, p, State(s.claims[p]))
    requires m == Submission(aggregate, s, q, State(s.claims[q]).log[State(s.claims[q]).read].offset)
    ensures var r := Took(s, q, P.Receive).claims[p];
            RunOk(r) && SubmitsReceived(aggregate, s.pool.submitted + [m], p, State(r))
  {
    SubmissionCounts(aggregate, s.pool.submitted, m, p, State(s.claims[p]));
    if p == q {
      var c := State(s.claims[q]);
      TookState(s, q, P.Receive);
      SubmitsDependsOn(aggregate, s.pool.submitted + [m], q, c.(read := c.read + 1), State(Took(s, q, P.Receive).claims[q]));
    } else {
      assert Took(s, q, P.Receive).claims[p] == s.claims[p];
    }
  }

  lemma ReceiveKeeps(aggregate: (nat, nat) -> Bytes, s: System, poolSize: nat, q: nat, fits: bool)
    requires poolSize > 0 && Inv(aggregate, s, poolSize) && Enabled(s, Step(q, P.Receive, fits))
    ensures Inv(aggregate, Receive(aggregate, s, poolSize, q, fits), poolSize)
  {
    var c := State(s.claims[q]);
    var m := Submission(aggregate, s, q, c.log[c.read].offset);
    var s' := Receive(aggregate, s, poolSize, q, fits);
    D.ApplyKeeps(s.pool, Route(poolSize), D.Submit(m, fits));
    assert s'.pool.submitted == s.pool.submitted + [m];
    forall p: nat | p < |s'.claims|
      ensures RunOk(s'.claims[p]) && SubmitsReceived(aggregate, s'.pool.submitted, p, State(s'.claims[p]))
    {
      ReceiveClaim(aggregate, s, q, p, m);
    }
  }

  lemma PoolKeeps(aggregate: (nat, nat) -> Bytes, s: System, poolSize: nat, e: D.Event<Message>)
    requires poolSize > 0 && Inv(aggregate, s, poolSize) && !e.Submit?
    ensures Inv(aggregate, s.(pool := D.Apply(s.pool, Route(poolSize), e)), poolSize)
  {
    D.ApplyKeeps(s.pool, Route(poolSize), e);
  }

  lemma {:induction false} NothingOf(submitted: seq<Message>, q: nat)
    requires forall k :: 0 <= k < |submitted| ==> submitted[k].claim != q
    ensures D.Select(OfClaim(q), submitted) == []
  {
    if submitted != [] {
      NothingOf(submitted[..|submitted| - 1], q);
    }
  }

  lemma OpenClaim(aggregate: (nat, nat) -> Bytes, submitted: seq<Message>, q: nat, r: Run)
    requires r.window > 0 && I.Increasing(r.log) && r.events == []
    requires forall k :: 0 <= k < |submitted| ==> submitted[k].claim != q
    ensures RunOk(r) && SubmitsReceived(aggregate, submitted, q, State(r))
  {
    NothingOf(submitted, q);
  }

  lemma OpenKeeps(aggregate: (nat, nat) -> Bytes, s: System, poolSize: nat, window: nat, hasDlq: bool, log: seq<P.Message>)
    requires poolSize > 0 && Inv(aggregate, s, poolSize) && window > 0 && I.Increasing(log)
    ensures Inv(aggregate, s.(claims := s.claims + [Run(window, hasDlq, log, [])]), poolSize)
  {
    OpenClaim(aggregate, s.pool.submitted, |s.claims|, Run(window, hasDlq, log, []));
  }

  lemma FireKeeps(aggregate: (nat, nat) -> Bytes, s: System, poolSize: nat, e: Event)
    requires poolSize > 0 && Inv(aggregate, s, poolSize) && Enabled(s, e)
    ensures Inv(aggregate, Fire(aggregate, s, poolSize, e), poolSize)
  {
    match e
    case Open(window, hasDlq, log) => OpenKeeps(aggregate, s, poolSize, window, hasDlq, log);
    case Step(q, e, fits) =>
      if e.Receive? {
        ReceiveKeeps(aggregate, s, poolSize, q, fits);
      } else {
        TookKeeps(aggregate, s, poolSize, q, e);
      }
    case Begin(w) => PoolKeeps(aggregate, s, poolSize, D.Begin(w));
    case Finish(w, outcome) =>
      var m := s.pool.workers[w].current.value;
      var s' := s.(pool := D.Apply(s.pool, Route(poolSize), D.End(w)), answers := s.answers + [Answer(m, outcome)]);
      PoolKeeps(aggregate, s, poolSize, D.End(w));
      if m.claim < |s.claims| {
        TookKeeps(aggregate, s', poolSize, m.claim, P.HandlerDone(m.offset, outcome));
      }
  }

  lemma {:induction false} ExecKeeps(aggregate: (nat, nat) -> Bytes, s: System, poolSize: nat, schedule: seq<Event>)
    requires poolSize > 0 && Inv(aggregate, s, poolSize)
    ensures Inv(aggregate, Exec(aggregate, s, poolSize, schedule), poolSize)
    decreases |schedule|
  {
    if schedule != [] {
      if Enabled(s, schedule[0]) {
        FireKeeps(aggregate, s, poolSize, schedule[0]);
      }
      ExecKeeps(aggregate, Apply(aggregate, s, poolSize, schedule[0]), poolSize, schedule[1..]);
    }
  }

  // ---------------------------------------------------------------- the theorems

  lemma {:induction false} ReachedInv(aggregate: (nat, nat) -> Bytes, poolSize: nat, schedule: seq<Event>)
    requires poolSize > 0
    ensures Inv(aggregate, Exec(aggregate, Init(poolSize), poolSize, schedule), poolSize)
  {
    ExecKeeps(aggregate, Init(poolSize), poolSize, schedule);
  }

  ghost predicate HasReceived(c: P.Claim, offset: nat) {
    exists i :: 0 <= i < c.read && i < |c.log| && c.log[i].offset == offset
  }

  /** In every run of all claims and the pool together, whatever the inboxes drop: the handler calls for
      one aggregate of one claim are made in offset order, on messages the claim has received, while
      other aggregates and other claims run concurrently. */
  lemma {:induction false} CallsFollowOffsets(aggregate: (nat, nat) -> Bytes, poolSize: nat, schedule: seq<Event>, key: Bytes, q: nat)
    requires poolSize > 0 && q < |Exec(aggregate, Init(poolSize), poolSize, schedule).claims|
    ensures var s := Exec(aggregate, Init(poolSize), poolSize, schedule); var calls := D.Select(OfBoth(key, q), s.pool.calls);
            && OffsetsIncrease(calls)
            && forall k :: 0 <= k < |calls| ==> HasReceived(State(s.claims[q]), calls[k].offset)
  {
    var s := Exec(aggregate, Init(poolSize), poolSize, schedule);
    ReachedInv(aggregate, poolSize, schedule);
    var c := State(s.claims[q]);
    var mine := D.Select(OfClaim(q), s.pool.submitted);
    assert RunOk(s.claims[q]) && SubmitsReceived(aggregate, s.pool.submitted, q, c);
    LogStays(s.claims[q]);
    assert forall j, k :: 0 <= j < k < |mine| ==> c.log[j].offset < c.log[k].offset;
    OrderWithinClaim(s.pool, poolSize, key, q);
    var calls := D.Select(OfBoth(key, q), s.pool.calls);
    SubsequenceMembers(calls, mine);
    forall k | 0 <= k < |calls| ensures HasReceived(c, calls[k].offset) {
      assert calls[k] in mine;
      var i :| 0 <= i < |mine| && mine[i] == calls[k];
      assert c.log[i].offset == calls[k].offset;
    }
  }

  /** If no inbox has dropped anything, the calls for an aggregate of a claim are an initial part of the
      messages of that aggregate in the order in which the claim received them; the rest waits in the
      aggregate's inbox. */
  lemma {:induction false} CallsAreReceived(aggregate: (nat, nat) -> Bytes, poolSize: nat, schedule: seq<Event>, key: Bytes, q: nat)
    requires poolSize > 0 && q < |Exec(aggregate, Init(poolSize), poolSize, schedule).claims|
    requires var s := Exec(aggregate, Init(poolSize), poolSize, schedule); s.pool.accepted == s.pool.submitted
    ensures var s := Exec(aggregate, Init(poolSize), poolSize, schedule); var both := OfBoth(key, q);
            && |s.pool.workers| == poolSize
            && SubmitsReceived(aggregate, s.pool.submitted, q, State(s.claims[q]))
            && D.Select(both, D.Select(OfClaim(q), s.pool.submitted))
               == D.Select(both, s.pool.calls) + D.Select(both, s.pool.workers[HashToIndex(key, poolSize)].inbox)
  {
    var s := Exec(aggregate, Init(poolSize), poolSize, schedule);
    ReachedInv(aggregate, poolSize, schedule);
    D.OrderOf(s.pool, Route(poolSize), OfBoth(key, q), HashToIndex(key, poolSize));
    D.SelectWithin(OfBoth(key, q), OfClaim(q), s.pool.submitted);
  }

  /** Every claim in the system runs as its pipeline does alone: its state is that of a schedule of the
      pipeline, so whatever holds of all those holds here. */
  lemma {:induction false} ClaimsArePipelines(aggregate: (nat, nat) -> Bytes, poolSize: nat, schedule: seq<Event>, q: nat)
    requires poolSize > 0 && q < |Exec(aggregate, Init(poolSize), poolSize, schedule).claims|
    ensures var r := Exec(aggregate, Init(poolSize), poolSize, schedule).claims[q];
            r.window > 0 && I.Increasing(r.log) && I.Inv(P.Exec(P.Init(r.window, r.hasDlq, r.log), r.events))
  {
    ReachedInv(aggregate, poolSize, schedule);
    var r := Exec(aggregate, Init(poolSize), poolSize, schedule).claims[q];
    I.InitInv(r.window, r.hasDlq, r.log);
    I.ExecKeeps(P.Init(r.window, r.hasDlq, r.log), r.events);
  }
}

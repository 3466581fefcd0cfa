/** What the claims learn of the handler calls: every answer a bridge can see is that of a call on its own
    message, no call answers twice, and nothing is committed that no handler has seen. */
module ClaimAnswers {
  import opened ActorPool
  import opened ClaimDispatch
  import D = KeyedDispatch
  import P = PipelineModel
  import I = PipelineInvariants
  import C = PipelineClaims
  import T = PipelineTheorems

  function Asked(answers: seq<Answer>): (messages: seq<Message>)
    ensures |messages| == |answers|
    ensures forall k :: 0 <= k < |answers| ==> messages[k] == answers[k].message
  {
    seq(|answers|, k requires 0 <= k < |answers| => answers[k].message)
  }

  function Doing(worker: D.Worker<Message>): seq<Message> {
    if worker.current.Some? then [worker.current.value] else []
  }

  /** A worker has answered all it has begun, in that order, but for the call in progress. */
  ghost predicate WorkersAnswer(pool: D.Sys<Message>, poolSize: nat, answers: seq<Answer>)
    requires poolSize > 0
  {
    forall w :: 0 <= w < |pool.workers| ==>
      D.Select(D.To(Route(poolSize), w), Asked(answers)) + Doing(pool.workers[w]) == pool.workers[w].begun
  }

  ghost predicate Answered(answers: seq<Answer>, q: nat, offset: int) {
    exists k :: 0 <= k < |answers| && answers[k].message.claim == q && answers[k].message.offset == offset
  }

  /** The results that claim q knows are the answers to its own messages. */
  ghost predicate Knows(done: map<int, P.Outcome>, answers: seq<Answer>, q: nat) {
    && (forall o :: o in done <==> Answered(answers, q, o))
    && (forall k :: 0 <= k < |answers| && answers[k].message.claim == q ==>
          answers[k].message.offset in done && done[answers[k].message.offset] == answers[k].outcome)
  }

  ghost predicate AnswersOk(s: System, poolSize: nat)
    requires poolSize > 0
  {
    && WorkersAnswer(s.pool, poolSize, s.answers)
    && (forall q :: 0 <= q < |s.claims| ==> Knows(State(s.claims[q]).done, s.answers, q))
    && (forall k :: 0 <= k < |s.answers| ==> s.answers[k].message.claim < |s.claims|)
  }

  // ---------------------------------------------------------------- each call answers once

  lemma AskedMore(answers: seq<Answer>, a: Answer)
    ensures Asked(answers + [a]) == Asked(answers) + [a.message]
  {
  }

  /** A call in progress or answered is on a message that was submitted, and on that message's worker. */
  lemma BegunIsSubmitted(aggregate: (nat, nat) -> Bytes, s: System, poolSize: nat, w: nat, m: Message)
    requires poolSize > 0 && ClaimDispatch.Inv(aggregate, s, poolSize) && w < |s.pool.workers| && m in s.pool.workers[w].begun
    ensures m in s.pool.submitted && Route(poolSize)(m) == w && m.claim < |s.claims|
  {
    hide RunOk, SubmitsReceived;
    assert D.WorkerOk(s.pool, Route(poolSize), w);
    D.SelectMembers(D.To(Route(poolSize), w), s.pool.accepted);
    assert m in s.pool.workers[w].begun + s.pool.workers[w].inbox;
    SubsequenceMembers(s.pool.accepted, s.pool.submitted);
  }

  /** A claim submits each of its messages once. */
  lemma OneSubmission(aggregate: (nat, nat) -> Bytes, s: System, poolSize: nat, m: Message, n: Message)
    requires poolSize > 0 && ClaimDispatch.Inv(aggregate, s, poolSize)
    requires m in s.pool.submitted && n in s.pool.submitted && m.claim == n.claim && m.offset == n.offset && m.claim < |s.claims|
    ensures m == n
  {
    var q := m.claim;
    var c := State(s.claims[q]);
    var mine := D.Select(OfClaim(q), s.pool.submitted);
    assert RunOk(s.claims[q]) && SubmitsReceived(aggregate, s.pool.submitted, q, c);
    LogStays(s.claims[q]);
    D.SelectMembers(OfClaim(q), s.pool.submitted);
    var i :| 0 <= i < |mine| && mine[i] == m;
    var j :| 0 <= j < |mine| && mine[j] == n;
    assert c.log[i].offset == c.log[j].offset;
  }

  /** A message that a claim has submitted is in its ledger. */
  lemma SubmittedIsTracked(aggregate: (nat, nat) -> Bytes, s: System, poolSize: nat, m: Message)
    requires poolSize > 0 && ClaimDispatch.Inv(aggregate, s, poolSize)
    requires m in s.pool.submitted && m.claim < |s.claims|
    ensures m.offset in State(s.claims[m.claim]).ledger
  {
    var q := m.claim;
    var r := s.claims[q];
    var mine := D.Select(OfClaim(q), s.pool.submitted);
    assert RunOk(r) && SubmitsReceived(aggregate, s.pool.submitted, q, State(r));
    D.SelectMembers(OfClaim(q), s.pool.submitted);
    var i :| 0 <= i < |mine| && mine[i] == m;
    T.ReachedInv(r.window, r.hasDlq, r.log, r.events);
    ReceivedIsTracked(State(r), i);
  }

  lemma ReceivedIsTracked(c: P.Claim, i: nat)
    requires I.Inv(c) && i < c.read
    ensures i < |c.log| && c.log[i].offset in c.ledger
  {
    hide I.EntryOk, I.BridgeOk, I.CarriedOk, I.DlqOk, I.MarkOk, I.DeterminedOk, I.AlertOk, I.PhaseOk;
  }

  /** The calls of one aggregate of one claim have increasing offsets, so none is repeated. */
  lemma NotTwice(aggregate: (nat, nat) -> Bytes, s: System, poolSize: nat, w: nat, before: seq<Message>, m: Message)
    requires poolSize > 0 && ClaimDispatch.Inv(aggregate, s, poolSize) && w < |s.pool.workers|
    requires s.pool.workers[w].begun == before + [m]
    ensures m !in before
  {
    hide SubmitsReceived, RunOk, State, HashToIndex;
    var both := OfBoth(m.key, m.claim);
    BegunIsSubmitted(aggregate, s, poolSize, w, m);
    ClaimInOrder(aggregate, s, poolSize, m.claim);
    OrderWithinClaim(s.pool, poolSize, m.key, m.claim);
    assert D.WorkerOk(s.pool, Route(poolSize), w);
    assert forall x :: both(x) ==> D.To(Route(poolSize), w)(x);
    D.SelectWithin(both, D.To(Route(poolSize), w), s.pool.calls);
    D.SelectAppend(both, before, m);
    D.SelectMembers(both, before);
    var earlier := D.Select(both, before);
    assert D.Select(both, s.pool.calls) == earlier + [m];
    forall j | 0 <= j < |earlier| ensures earlier[j].offset < m.offset {
      assert (earlier + [m])[j] == earlier[j] && (earlier + [m])[|earlier|] == m;
    }
  }

  lemma ClaimInOrder(aggregate: (nat, nat) -> Bytes, s: System, poolSize: nat, q: nat)
    requires poolSize > 0 && ClaimDispatch.Inv(aggregate, s, poolSize) && q < |s.claims|
    ensures OffsetsIncrease(D.Select(OfClaim(q), s.pool.submitted))
  {
    assert RunOk(s.claims[q]) && SubmitsReceived(aggregate, s.pool.submitted, q, State(s.claims[q]));
    LogStays(s.claims[q]);
  }

  /** What an ending call is about to answer nobody has answered yet. */
  lemma NotAnsweredYet(aggregate: (nat, nat) -> Bytes, s: System, poolSize: nat, w: nat)
    requires poolSize > 0 && ClaimDispatch.Inv(aggregate, s, poolSize) && AnswersOk(s, poolSize)
    requires w < |s.pool.workers| && s.pool.workers[w].current.Some?
    ensures var m := s.pool.workers[w].current.value; m.claim < |s.claims| && !Answered(s.answers, m.claim, m.offset)
  {
    hide ClaimDispatch.Inv, Knows;
    var m := s.pool.workers[w].current.value;
    var before := D.Select(D.To(Route(poolSize), w), Asked(s.answers));
    assert s.pool.workers[w].begun == before + [m];
    BegunIsSubmitted(aggregate, s, poolSize, w, m);
    NotTwice(aggregate, s, poolSize, w, before, m);
    if Answered(s.answers, m.claim, m.offset) {
      var k :| 0 <= k < |s.answers| && s.answers[k].message.claim == m.claim && s.answers[k].message.offset == m.offset;
      var n := s.answers[k].message;
      AnsweredIsSubmitted(aggregate, s, poolSize, n);
      OneSubmission(aggregate, s, poolSize, m, n);
      D.SelectMembers(D.To(Route(poolSize), w), Asked(s.answers));
    }
  }

  lemma AnsweredIsSubmitted(aggregate: (nat, nat) -> Bytes, s: System, poolSize: nat, n: Message)
    requires poolSize > 0 && ClaimDispatch.Inv(aggregate, s, poolSize) && WorkersAnswer(s.pool, poolSize, s.answers)
    requires n in Asked(s.answers)
    ensures n in s.pool.submitted
  {
    var v := Route(poolSize)(n);
    assert v < |s.pool.workers|;
    D.SelectMembers(D.To(Route(poolSize), v), Asked(s.answers));
    assert n in D.Select(D.To(Route(poolSize), v), Asked(s.answers)) + Doing(s.pool.workers[v]);
    BegunIsSubmitted(aggregate, s, poolSize, v, n);
  }

  // ---------------------------------------------------------------- every step

  lemma DoneOnlyByHandler(c: P.Claim, e: P.Event)
    requires P.Enabled(c, e) && !e.HandlerDone?
    ensures P.Fire(c, e).done == c.done
  {
    match e
    case TakeCompletion => I.CompletionConstants(c); assert P.OnCompletion(c).done == c.done;
    case TakeDlqResult => I.DlqResultConstants(c); assert P.OnDlqResult(c).done == c.done;
    case _ =>
  }

  lemma KnowsMore(done: map<int, P.Outcome>, answers: seq<Answer>, a: Answer, q: nat)
    requires Knows(done, answers, q)
    ensures a.message.claim != q ==> Knows(done, answers + [a], q)
    ensures a.message.claim == q && a.message.offset !in done ==> Knows(done[a.message.offset := a.outcome], answers + [a], q)
  {
    var all := answers + [a];
    assert forall k :: 0 <= k < |answers| ==> all[k] == answers[k];
    assert all[|answers|] == a;
    forall o ensures Answered(all, q, o) <==> Answered(answers, q, o) || (a.message.claim == q && a.message.offset == o) {
      if Answered(answers, q, o) {
        var k :| 0 <= k < |answers| && answers[k].message.claim == q && answers[k].message.offset == o;
        assert all[k].message.claim == q;
      }
    }
  }

  /** Begin and End of a call, and a submission, with the history of answers. */
  lemma WorkersKeep(pool: D.Sys<Message>, poolSize: nat, answers: seq<Answer>, e: D.Event<Message>)
    requires poolSize > 0 && WorkersAnswer(pool, poolSize, answers) && !e.End?
    ensures WorkersAnswer(D.Apply(pool, Route(poolSize), e), poolSize, answers)
  {
    var pool' := D.Apply(pool, Route(poolSize), e);
    forall w | 0 <= w < |pool'.workers|
      ensures D.Select(D.To(Route(poolSize), w), Asked(answers)) + Doing(pool'.workers[w]) == pool'.workers[w].begun
    {
      assert D.Select(D.To(Route(poolSize), w), Asked(answers)) + Doing(pool.workers[w]) == pool.workers[w].begun;
    }
  }

  lemma EndKeeps(pool: D.Sys<Message>, poolSize: nat, answers: seq<Answer>, w: nat, a: Answer)
    requires poolSize > 0 && WorkersAnswer(pool, poolSize, answers) && D.Inv(pool, Route(poolSize))
    requires w < |pool.workers| && pool.workers[w].current.Some? && a.message == pool.workers[w].current.value
    ensures WorkersAnswer(D.Apply(pool, Route(poolSize), D.End(w)), poolSize, answers + [a])
  {
    var pool' := D.Apply(pool, Route(poolSize), D.End(w));
    AskedMore(answers, a);
    assert D.WorkerOk(pool, Route(poolSize), w);
    forall v | 0 <= v < |pool'.workers|
      ensures D.Select(D.To(Route(poolSize), v), Asked(answers + [a])) + Doing(pool'.workers[v]) == pool'.workers[v].begun
    {
      assert D.Select(D.To(Route(poolSize), v), Asked(answers)) + Doing(pool.workers[v]) == pool.workers[v].begun;
      D.SelectAppend(D.To(Route(poolSize), v), Asked(answers), a.message);
    }
  }

  lemma StepAnswers(aggregate: (nat, nat) -> Bytes, s: System, poolSize: nat, q: nat, e: P.Event, fits: bool)
    requires poolSize > 0 && ClaimDispatch.Inv(aggregate, s, poolSize) && AnswersOk(s, poolSize)
    requires ClaimDispatch.Enabled(s, Step(q, e, fits))
    ensures AnswersOk(Fire(aggregate, s, poolSize, Step(q, e, fits)), poolSize)
  {
    hide SubmitsReceived, D.Inv;
    var s' := Fire(aggregate, s, poolSize, Step(q, e, fits));
    assert RunOk(s.claims[q]);
    TookState(s, q, e);
    DoneOnlyByHandler(State(s.claims[q]), e);
    if e.Receive? {
      var c := State(s.claims[q]);
      WorkersKeep(s.pool, poolSize, s.answers, D.Submit(Submission(aggregate, s, q, c.log[c.read].offset), fits));
    }
    forall p | 0 <= p < |s'.claims| ensures Knows(State(s'.claims[p]).done, s'.answers, p) {
      assert Knows(State(s.claims[p]).done, s.answers, p);
    }
  }

  lemma FinishAnswers(aggregate: (nat, nat) -> Bytes, s: System, poolSize: nat, w: nat, outcome: P.Outcome)
    requires poolSize > 0 && ClaimDispatch.Inv(aggregate, s, poolSize) && AnswersOk(s, poolSize)
    requires ClaimDispatch.Enabled(s, Finish(w, outcome))
    ensures AnswersOk(Fire(aggregate, s, poolSize, Finish(w, outcome)), poolSize)
  {
    hide SubmitsReceived, Knows;
    var m := s.pool.workers[w].current.value;
    var a := Answer(m, outcome);
    var s' := Fire(aggregate, s, poolSize, Finish(w, outcome));
    NotAnsweredYet(aggregate, s, poolSize, w);
    EndKeeps(s.pool, poolSize, s.answers, w, a);
    HandlerIsHeard(aggregate, s, poolSize, w, outcome);
    forall p | 0 <= p < |s'.claims| ensures Knows(State(s'.claims[p]).done, s'.answers, p) {
      assert Knows(State(s.claims[p]).done, s.answers, p);
      KnowsMore(State(s.claims[p]).done, s.answers, a, p);
      if p == m.claim {
        NotKnownYet(State(s.claims[p]).done, s.answers, p, m.offset);
      }
    }
  }

  lemma NotKnownYet(done: map<int, P.Outcome>, answers: seq<Answer>, q: nat, offset: int)
    requires Knows(done, answers, q) && !Answered(answers, q, offset)
    ensures offset !in done
  {
  }

  /** The claim is still waiting for this answer. */
  lemma HandlerIsHeard(aggregate: (nat, nat) -> Bytes, s: System, poolSize: nat, w: nat, outcome: P.Outcome)
    requires poolSize > 0 && ClaimDispatch.Inv(aggregate, s, poolSize) && AnswersOk(s, poolSize)
    requires ClaimDispatch.Enabled(s, Finish(w, outcome))
    ensures var m := s.pool.workers[w].current.value; var s' := Fire(aggregate, s, poolSize, Finish(w, outcome));
            && m.claim < |s.claims| && |s'.claims| == |s.claims|
            && State(s'.claims[m.claim]).done == State(s.claims[m.claim]).done[m.offset := outcome]
            && forall p :: 0 <= p < |s.claims| && p != m.claim ==> s'.claims[p] == s.claims[p]
  {
    hide SubmitsReceived, D.Inv;
    var m := s.pool.workers[w].current.value;
    NotAnsweredYet(aggregate, s, poolSize, w);
    InProgressIsBegun(s.pool, poolSize, w);
    BegunIsSubmitted(aggregate, s, poolSize, w, m);
    SubmittedIsTracked(aggregate, s, poolSize, m);
    NotKnownYet(State(s.claims[m.claim]).done, s.answers, m.claim, m.offset);
    assert RunOk(s.claims[m.claim]);
    var s1 := s.(pool := D.Apply(s.pool, Route(poolSize), D.End(w)), answers := s.answers + [Answer(m, outcome)]);
    TookState(s1, m.claim, P.HandlerDone(m.offset, outcome));
  }

  lemma InProgressIsBegun(pool: D.Sys<Message>, poolSize: nat, w: nat)
    requires poolSize > 0 && D.Inv(pool, Route(poolSize)) && w < |pool.workers| && pool.workers[w].current.Some?
    ensures pool.workers[w].current.value in pool.workers[w].begun
  {
    assert D.WorkerOk(pool, Route(poolSize), w);
  }

  lemma OpenAnswers(s: System, poolSize: nat, window: nat, hasDlq: bool, log: seq<P.Message>)
    requires poolSize > 0 && AnswersOk(s, poolSize)
    ensures AnswersOk(s.(claims := s.claims + [Run(window, hasDlq, log, [])]), poolSize)
  {
    var s' := s.(claims := s.claims + [Run(window, hasDlq, log, [])]);
    forall q | 0 <= q < |s'.claims| ensures Knows(State(s'.claims[q]).done, s'.answers, q) {
      if q < |s.claims| {
        assert Knows(State(s.claims[q]).done, s.answers, q);
      }
    }
  }

  lemma FireAnswers(aggregate: (nat, nat) -> Bytes, s: System, poolSize: nat, e: Event)
    requires poolSize > 0 && ClaimDispatch.Inv(aggregate, s, poolSize) && AnswersOk(s, poolSize) && ClaimDispatch.Enabled(s, e)
    ensures AnswersOk(Fire(aggregate, s, poolSize, e), poolSize)
  {
    match e
    case Open(window, hasDlq, log) => OpenAnswers(s, poolSize, window, hasDlq, log);
    case Step(q, e, fits) => StepAnswers(aggregate, s, poolSize, q, e, fits);
    case Begin(w) => WorkersKeep(s.pool, poolSize, s.answers, D.Begin(w));
    case Finish(w, outcome) => FinishAnswers(aggregate, s, poolSize, w, outcome);
  }

  lemma {:induction false} ExecAnswers(aggregate: (nat, nat) -> Bytes, s: System, poolSize: nat, schedule: seq<Event>)
    requires poolSize > 0 && ClaimDispatch.Inv(aggregate, s, poolSize) && AnswersOk(s, poolSize)
    ensures AnswersOk(Exec(aggregate, s, poolSize, schedule), poolSize)
    decreases |schedule|
  {
    hide ClaimDispatch.Inv, AnswersOk, Fire, ClaimDispatch.Enabled;
    if schedule != [] {
      if ClaimDispatch.Enabled(s, schedule[0]) {
        FireKeeps(aggregate, s, poolSize, schedule[0]);
        FireAnswers(aggregate, s, poolSize, schedule[0]);
      }
      ExecAnswers(aggregate, Apply(aggregate, s, poolSize, schedule[0]), poolSize, schedule[1..]);
    }
  }

  // ---------------------------------------------------------------- messages without an aggregate

  predicate HasNoAggregate(aggregate: (nat, nat) -> Bytes, m: Message) {
    aggregate(m.claim, m.offset) == []
  }

  /** Every message without an aggregate has taken its key from another value of the counter. */
  ghost predicate KeysSpread(aggregate: (nat, nat) -> Bytes, submitted: seq<Message>, counter: nat) {
    && (forall k :: 0 <= k < |submitted| && HasNoAggregate(aggregate, submitted[k]) ==> FromCounter(submitted[k].key, counter))
    && (forall j, k :: 0 <= j < k < |submitted| && HasNoAggregate(aggregate, submitted[j]) && HasNoAggregate(aggregate, submitted[k]) ==>
          submitted[j].key != submitted[k].key)
  }

  ghost predicate FromCounter(key: Bytes, counter: nat) {
    exists n: nat :: 0 < n <= counter && key == RoutingKey([], n)
  }

  lemma FromCounterMore(key: Bytes, counter: nat)
    requires FromCounter(key, counter)
    ensures FromCounter(key, counter + 1) && key != RoutingKey([], counter + 1)
  {
    var n: nat :| 0 < n <= counter && key == RoutingKey([], n);
    RoundRobinKeys(n, counter + 1);
  }

  lemma SubmissionSpreads(aggregate: (nat, nat) -> Bytes, submitted: seq<Message>, counter: nat, m: Message)
    requires KeysSpread(aggregate, submitted, counter)
    requires m.key == RoutingKey(aggregate(m.claim, m.offset), counter + 1)
    ensures KeysSpread(aggregate, submitted + [m], if HasNoAggregate(aggregate, m) then counter + 1 else counter)
  {
    hide RoutingKey;
    var all := submitted + [m];
    assert forall k :: 0 <= k < |submitted| ==> all[k] == submitted[k];
    if HasNoAggregate(aggregate, m) {
      assert m.key == RoutingKey([], counter + 1);
      forall k | 0 <= k < |submitted| && HasNoAggregate(aggregate, submitted[k])
        ensures FromCounter(submitted[k].key, counter + 1) && submitted[k].key != m.key
      {
        FromCounterMore(submitted[k].key, counter);
      }
    }
  }

  lemma FireSpreads(aggregate: (nat, nat) -> Bytes, s: System, poolSize: nat, e: Event)
    requires poolSize > 0 && ClaimDispatch.Enabled(s, e) && KeysSpread(aggregate, s.pool.submitted, s.counter)
    requires |s.pool.workers| == poolSize
    ensures var s' := Fire(aggregate, s, poolSize, e); KeysSpread(aggregate, s'.pool.submitted, s'.counter)
  {
    hide KeysSpread, RoutingKey;
    if e.Step? && e.e.Receive? {
      var c := State(s.claims[e.q]);
      var m := Submission(aggregate, s, e.q, c.log[c.read].offset);
      SubmissionSpreads(aggregate, s.pool.submitted, s.counter, m);
    }
  }

  lemma {:induction false} ExecSpreads(aggregate: (nat, nat) -> Bytes, s: System, poolSize: nat, schedule: seq<Event>)
    requires poolSize > 0 && ClaimDispatch.Inv(aggregate, s, poolSize) && KeysSpread(aggregate, s.pool.submitted, s.counter)
    ensures var s' := Exec(aggregate, s, poolSize, schedule); KeysSpread(aggregate, s'.pool.submitted, s'.counter)
    decreases |schedule|
  {
    hide RunOk, SubmitsReceived, D.Inv, KeysSpread, Fire, ClaimDispatch.Enabled;
    if schedule != [] {
      if ClaimDispatch.Enabled(s, schedule[0]) {
        FireKeeps(aggregate, s, poolSize, schedule[0]);
        FireSpreads(aggregate, s, poolSize, schedule[0]);
      }
      ExecSpreads(aggregate, Apply(aggregate, s, poolSize, schedule[0]), poolSize, schedule[1..]);
    }
  }

  /** In every run no two messages without an aggregate, of whatever claims, have the same routing key, so
      none of them has to wait for another one's call by its key. */
  lemma {:induction false} RoundRobinSpreads(aggregate: (nat, nat) -> Bytes, poolSize: nat, schedule: seq<Event>, j: nat, k: nat)
    requires poolSize > 0
    requires var submitted := Exec(aggregate, Init(poolSize), poolSize, schedule).pool.submitted;
             j < k < |submitted| && HasNoAggregate(aggregate, submitted[j]) && HasNoAggregate(aggregate, submitted[k])
    ensures var submitted := Exec(aggregate, Init(poolSize), poolSize, schedule).pool.submitted;
            submitted[j].key != submitted[k].key
  {
    ReachedInv(aggregate, poolSize, []);
    ExecSpreads(aggregate, Init(poolSize), poolSize, schedule);
  }

  // ---------------------------------------------------------------- the theorems

  lemma {:induction false} ReachedAnswers(aggregate: (nat, nat) -> Bytes, poolSize: nat, schedule: seq<Event>)
    requires poolSize > 0
    ensures AnswersOk(Exec(aggregate, Init(poolSize), poolSize, schedule), poolSize)
  {
    ReachedInv(aggregate, poolSize, []);
    ExecAnswers(aggregate, Init(poolSize), poolSize, schedule);
  }

  /** In every run the results that a claim knows are exactly the answers of the calls on its own messages
      that have ended, each with its own outcome; and the calls of an aggregate are answered one by one in
      the order of the calls, all but the one in progress. */
  lemma {:induction false} AnswersAreOwn(aggregate: (nat, nat) -> Bytes, poolSize: nat, schedule: seq<Event>, q: nat, key: Bytes)
    requires poolSize > 0 && q < |Exec(aggregate, Init(poolSize), poolSize, schedule).claims|
    ensures var s := Exec(aggregate, Init(poolSize), poolSize, schedule); var both := OfBoth(key, q);
            && Knows(State(s.claims[q]).done, s.answers, q)
            && |s.pool.workers| == poolSize
            && D.Select(both, s.pool.calls)
               == D.Select(both, Asked(s.answers)) + D.Select(both, Doing(s.pool.workers[HashToIndex(key, poolSize)]))
  {
    var s := Exec(aggregate, Init(poolSize), poolSize, schedule);
    ReachedInv(aggregate, poolSize, schedule);
    ReachedAnswers(aggregate, poolSize, schedule);
    AnswersInOrder(s.pool, poolSize, s.answers, q, key);
  }

  lemma AnswersInOrder(pool: D.Sys<Message>, poolSize: nat, answers: seq<Answer>, q: nat, key: Bytes)
    requires poolSize > 0 && |pool.workers| == poolSize && D.Inv(pool, Route(poolSize)) && WorkersAnswer(pool, poolSize, answers)
    ensures var both := OfBoth(key, q);
            D.Select(both, pool.calls)
            == D.Select(both, Asked(answers)) + D.Select(both, Doing(pool.workers[HashToIndex(key, poolSize)]))
  {
    var both, w := OfBoth(key, q), HashToIndex(key, poolSize);
    var mine := D.To(Route(poolSize), w);
    assert D.WorkerOk(pool, Route(poolSize), w);
    assert forall x :: both(x) ==> mine(x);
    D.SelectWithin(both, mine, pool.calls);
    D.SelectWithin(both, mine, Asked(answers));
    D.SelectConcat(both, D.Select(mine, Asked(answers)), Doing(pool.workers[w]));
  }

  /** Nothing is committed that no handler has seen: for every message at or below a mark of its claim a
      handler call on it has ended; with success, or with a failure that its kind allows. */
  lemma {:induction false} CommittedWereHandled(aggregate: (nat, nat) -> Bytes, poolSize: nat, schedule: seq<Event>, q: nat, i: nat, k: nat)
    requires poolSize > 0 && q < |Exec(aggregate, Init(poolSize), poolSize, schedule).claims|
    requires var r := Exec(aggregate, Init(poolSize), poolSize, schedule).claims[q];
             i < |r.log| && k < |State(r).marks| && r.log[i].offset <= State(r).marks[k]
    ensures var s := Exec(aggregate, Init(poolSize), poolSize, schedule); var m := s.claims[q].log[i];
            exists a :: && 0 <= a < |s.answers| && s.answers[a].message.claim == q && s.answers[a].message.offset == m.offset
                        && (s.answers[a].outcome == P.Succeeded || !m.isEnvelope
                            || (m.offset in State(s.claims[q]).dlqDone && State(s.claims[q]).dlqDone[m.offset]))
  {
    var s := Exec(aggregate, Init(poolSize), poolSize, schedule);
    var r := s.claims[q];
    ReachedInv(aggregate, poolSize, schedule);
    ReachedAnswers(aggregate, poolSize, schedule);
    assert RunOk(r);
    T.ReachedInv(r.window, r.hasDlq, r.log, r.events);
    C.MarkedIsJustified(State(r), i, k);
    JustifiedIsDone(State(r), r.log[i]);
    assert Knows(State(r).done, s.answers, q) && Answered(s.answers, q, r.log[i].offset);
  }

  lemma JustifiedIsDone(c: P.Claim, m: P.Message)
    requires I.Inv(c) && I.Justified(m, c.done, c.dlqDone)
    ensures m.offset in c.done
  {
    hide I.LedgerOk, I.BridgeOk, I.CarriedOk, I.DlqOk, I.MarkOk, I.DeterminedOk, I.AlertOk, I.PhaseOk;
  }
}

/** Where an uncanceled claim ends up: it always comes to rest, and the resting state depends only
    on the messages and on what the handlers and the DLQ return, never on the interleaving. */
module PipelineConfluence {
  import opened PipelineModel
  import opened PipelineInvariants
  import opened PipelineTheorems

  // ---------------------------------------------------------------- every run is finite

  function PhaseWeight(p: Phase): nat {
    match p case Running => 2 case Flushing => 1 case Returned => 0
  }

  ghost function Measure(c: Claim): int {
    7 * (|c.log| - c.read) + (c.read - |c.done|)
    + 5 * |c.waiting| + 4 * |c.holding| + 3 * |c.compCh| + 2 * |c.dlqRunning| + |c.dlqCh|
    + (if c.canceled then 0 else 1) + (if c.closed then 0 else 1) + PhaseWeight(c.phase)
  }

  lemma CompletionLowers(c: Claim)
    requires c.compCh != []
    ensures Measure(OnCompletion(c)) < Measure(c)
    ensures OnCompletion(c).phase == c.phase
  {
  }

  lemma DlqResultLowers(c: Claim)
    requires c.dlqCh != []
    ensures Measure(OnDlqResult(c)) < Measure(c)
    ensures OnDlqResult(c).phase == c.phase
  {
  }

  lemma BridgeLowers(c: Claim, o: nat)
    ensures Enabled(c, BridgeTake(o)) ==> Measure(Fire(c, BridgeTake(o))) < Measure(c)
    ensures Enabled(c, BridgeGiveUp(o)) ==> Measure(Fire(c, BridgeGiveUp(o))) < Measure(c)
  {
  }

  lemma BridgeSendLowers(c: Claim, o: nat)
    requires Enabled(c, BridgeSend(o))
    ensures Measure(Fire(c, BridgeSend(o))) < Measure(c)
  {
    assert c.holding.Keys == (c.holding - {o}).Keys + {o};
  }

  lemma DlqFinishLowers(c: Claim, o: nat, ok: bool)
    requires Enabled(c, DlqFinish(o, ok))
    ensures Measure(Fire(c, DlqFinish(o, ok))) < Measure(c)
  {
  }

  lemma HandlerDoneLowers(c: Claim, o: nat, outcome: Outcome)
    requires Enabled(c, HandlerDone(o, outcome))
    ensures Measure(Fire(c, HandlerDone(o, outcome))) < Measure(c)
  {
  }

  lemma LoopLowers(c: Claim, e: Event)
    requires Enabled(c, e) && e in {ReceiveNil, Cancel, EnterFlush, FlushTimeout}
    ensures Measure(Fire(c, e)) < Measure(c)
  {
    HeadLowers(c.(closed := true));
    HeadLowers(c.(phase := Flushing));
  }

  lemma HeadLowers(c: Claim)
    ensures Measure(LoopHead(c)) <= Measure(c)
  {
  }

  lemma ReceiveLowers(c: Claim)
    requires c.read < |c.log|
    ensures Measure(OnReceive(c)) < Measure(c)
  {
  }

  lemma FireLowers(c: Claim, e: Event)
    requires Enabled(c, e)
    ensures Measure(Fire(c, e)) < Measure(c)
  {
    match e
    case Receive => ReceiveLowers(c);
    case HandlerDone(o, outcome) => HandlerDoneLowers(c, o, outcome);
    case BridgeTake(o) => BridgeLowers(c, o);
    case BridgeSend(o) => BridgeSendLowers(c, o);
    case BridgeGiveUp(o) => BridgeLowers(c, o);
    case TakeCompletion => CompletionLowers(c);
    case DlqFinish(o, ok) => DlqFinishLowers(c, o, ok);
    case TakeDlqResult => DlqResultLowers(c);
    case _ => LoopLowers(c, e);
  }

  lemma MeasureIsNat(c: Claim)
    requires Inv(c)
    ensures Measure(c) >= 0
  {
    assert forall o :: o in c.done.Keys ==> o in c.ledger.Keys;
    SubsetSize(c.done.Keys, c.ledger.Keys);
  }

  /** The number of events of a schedule that take effect. */
  ghost function Fired(c: Claim, schedule: seq<Event>): nat
    decreases |schedule|
  {
    if schedule == [] then 0
    else (if Enabled(c, schedule[0]) then 1 else 0) + Fired(Apply(c, schedule[0]), schedule[1..])
  }

  lemma {:induction false} FiredBelowMeasure(c: Claim, schedule: seq<Event>)
    ensures Fired(c, schedule) + Measure(Exec(c, schedule)) <= Measure(c)
    decreases |schedule|
  {
    if schedule != [] {
      if Enabled(c, schedule[0]) {
        FireLowers(c, schedule[0]);
      }
      FiredBelowMeasure(Apply(c, schedule[0]), schedule[1..]);
    }
  }

  /** A claim over n messages takes at most 7n + 4 steps, canceled or not. */
  lemma {:induction false} EveryRunIsShort(window: nat, hasDlq: bool, log: seq<Message>, schedule: seq<Event>)
    requires window > 0 && Increasing(log)
    ensures Fired(Init(window, hasDlq, log), schedule) <= 7 * |log| + 4
  {
    var c := Init(window, hasDlq, log);
    InitInv(window, hasDlq, log);
    ExecKeeps(c, schedule);
    MeasureIsNat(Exec(c, schedule));
    FiredBelowMeasure(c, schedule);
  }

  // ---------------------------------------------------------------- plans and rest

  /** What each handler call and each DLQ send returns; an absent offset never answers. */
  datatype Plan = Plan(handler: map<int, Outcome>, dlq: map<int, bool>)

  ghost predicate PlanFits(c: Claim, plan: Plan) {
    forall o :: o in plan.dlq && plan.dlq[o] ==> c.hasDlq
  }

  /** The uncanceled steps that agree with the plan; the message channel is only closed after the
      whole log was delivered. */
  ghost predicate Follows(c: Claim, plan: Plan, e: Event) {
    match e
    case HandlerDone(o, outcome) => o in plan.handler && plan.handler[o] == outcome
    case DlqFinish(o, ok) => o in plan.dlq && plan.dlq[o] == ok
    case Cancel => false
    case ReceiveNil => c.read == |c.log|
    case _ => true
  }

  ghost predicate FollowsAll(c: Claim, plan: Plan, schedule: seq<Event>)
    decreases |schedule|
  {
    schedule == [] ||
    (&& (Enabled(c, schedule[0]) ==> Follows(c, plan, schedule[0]))
     && FollowsAll(Apply(c, schedule[0]), plan, schedule[1..]))
  }

  ghost predicate Agrees(c: Claim, plan: Plan) {
    && !c.canceled && c.phase != Flushing
    && (forall o :: o in c.done ==> o in plan.handler && c.done[o] == plan.handler[o])
    && (forall o :: o in c.dlqDone ==> o in plan.dlq && c.dlqDone[o] == plan.dlq[o])
  }

  lemma CompletionHistory(c: Claim)
    requires c.compCh != []
    ensures OnCompletion(c).done == c.done && OnCompletion(c).dlqDone == c.dlqDone && OnCompletion(c).phase == c.phase
  {
  }

  lemma DlqResultHistory(c: Claim)
    requires c.dlqCh != []
    ensures OnDlqResult(c).done == c.done && OnDlqResult(c).dlqDone == c.dlqDone && OnDlqResult(c).phase == c.phase
  {
  }

  lemma FollowingAgrees(c: Claim, plan: Plan, e: Event)
    requires Agrees(c, plan) && Enabled(c, e) && Follows(c, plan, e)
    ensures Agrees(Fire(c, e), plan)
  {
    FireConstants(c, e);
    match e
    case TakeCompletion => CompletionHistory(c);
    case TakeDlqResult => DlqResultHistory(c);
    case _ =>
  }

  lemma {:induction false} ExecAgrees(c: Claim, plan: Plan, schedule: seq<Event>)
    requires Agrees(c, plan) && FollowsAll(c, plan, schedule)
    ensures Agrees(Exec(c, schedule), plan)
    decreases |schedule|
  {
    if schedule != [] {
      if Enabled(c, schedule[0]) {
        FollowingAgrees(c, plan, schedule[0]);
      }
      ExecAgrees(Apply(c, schedule[0]), plan, schedule[1..]);
    }
  }

  /** A step that follows the plan and is not the closing of the channel. */
  ghost predicate Moves(c: Claim, plan: Plan, e: Event) {
    Enabled(c, e) && Follows(c, plan, e) && e != ReceiveNil
  }

  /** Nothing but closing the message channel can happen any more. */
  ghost predicate AtRest(c: Claim, plan: Plan) {
    forall e :: !Moves(c, plan, e)
  }

  lemma OneMove(c: Claim, plan: Plan, e: Event, rest: seq<Event>)
    requires Moves(c, plan, e) && FollowsAll(Fire(c, e), plan, rest)
    ensures FollowsAll(c, plan, [e] + rest) && Exec(c, [e] + rest) == Exec(Fire(c, e), rest)
  {
    assert ([e] + rest)[1..] == rest;
  }

  /** From every state some schedule that follows the plan comes to rest. */
  lemma {:induction false} SomeRunRests(c: Claim, plan: Plan) returns (schedule: seq<Event>)
    requires Inv(c)
    ensures FollowsAll(c, plan, schedule) && AtRest(Exec(c, schedule), plan)
    decreases if Measure(c) >= 0 then Measure(c) else 0
  {
    if AtRest(c, plan) {
      schedule := [];
    } else {
      var e :| Moves(c, plan, e);
      FireKeeps(c, e);
      FireLowers(c, e);
      MeasureIsNat(Fire(c, e));
      var rest := SomeRunRests(Fire(c, e), plan);
      OneMove(c, plan, e, rest);
      schedule := [e] + rest;
    }
  }

  /** Every run of a claim can be continued by what given handler and DLQ answers allow until it comes
      to rest. */
  lemma {:induction false} EveryRunCanRest(window: nat, hasDlq: bool, log: seq<Message>, before: seq<Event>, plan: Plan)
    requires window > 0 && Increasing(log)
    ensures var c := Reached(window, hasDlq, log, before);
            exists later :: FollowsAll(c, plan, later) && AtRest(Exec(c, later), plan)
  {
    ReachedInv(window, hasDlq, log, before);
    var later := SomeRunRests(Reached(window, hasDlq, log, before), plan);
  }

  // ---------------------------------------------------------------- the resting state

  /** What the entry of a received message looks like at rest. */
  ghost function Final(m: Message, plan: Plan): Entry {
    if m.offset !in plan.handler then Entry(m, false, false, false)
    else Expected(m, plan.handler[m.offset], m.offset !in plan.dlq, plan.dlq)
  }

  /** An unsettled entry whose handler answers can still move. */
  lemma UnsettledMoves(c: Claim, plan: Plan, o: nat)
    requires Inv(c) && !c.canceled && o in c.ledger && !c.ledger[o].settled && o in plan.handler
    ensures exists e :: Moves(c, plan, e)
  {
    NotReadyIsTracked(c.ledger, c.start, o);
    if o !in c.done {
      assert Moves(c, plan, HandlerDone(o, plan.handler[o]));
    } else if o in c.waiting {
      assert Moves(c, plan, BridgeTake(o));
    } else if o in c.holding {
      RoomInChannels(c);
      WithRoomNobodyBlocks(c);
      assert Moves(c, plan, BridgeSend(o));
    } else {
      assert c.compCh != [];
      assert Moves(c, plan, TakeCompletion);
    }
  }

  /** A DLQ-pending entry whose send returns can still move. */
  lemma PendingMoves(c: Claim, plan: Plan, o: nat)
    requires Inv(c) && !c.canceled && PlanFits(c, plan)
    requires o in c.ledger && c.ledger[o].dlqPending && o in plan.dlq
    ensures exists e :: Moves(c, plan, e)
  {
    NotReadyIsTracked(c.ledger, c.start, o);
    if o in c.dlqRunning {
      RoomInChannels(c);
      WithRoomNobodyBlocks(c);
      assert Moves(c, plan, DlqFinish(o, plan.dlq[o]));
    } else {
      assert c.dlqCh != [];
      assert Moves(c, plan, TakeDlqResult);
    }
  }

  lemma RestingEntry(c: Claim, plan: Plan, o: nat)
    requires Inv(c) && Agrees(c, plan) && PlanFits(c, plan) && AtRest(c, plan)
    requires o in c.ledger
    ensures c.ledger[o] == Final(c.ledger[o].msg, plan)
  {
    if o in plan.handler && !c.ledger[o].settled {
      UnsettledMoves(c, plan, o);
    }
    if c.ledger[o].dlqPending && o in plan.dlq {
      PendingMoves(c, plan, o);
    }
  }

  /** Every entry is what the plan says. */
  ghost predicate AsPlanned(c: Claim, plan: Plan) {
    && LedgerOk(c.log, c.read, c.start, c.ledger)
    && (forall o :: o in c.ledger ==> c.ledger[o] == Final(c.ledger[o].msg, plan))
  }

  /** ... and reading has stopped only because the log is exhausted or the window is full. */
  ghost predicate Rested(c: Claim, plan: Plan) {
    && AsPlanned(c, plan)
    && c.window > 0 && |Tracked(c)| <= c.window
    && (c.read < |c.log| ==> |Tracked(c)| == c.window)
    && MarkOk(Frontier(c), c.start, c.marks)
  }

  lemma NothingReceived(c: Claim)
    requires c.ledger == map[]
    ensures Tracked(c) == {}
  {
  }

  lemma RestIsRested(c: Claim, plan: Plan)
    requires Inv(c) && Agrees(c, plan) && PlanFits(c, plan) && AtRest(c, plan)
    requires c.closed ==> c.read == |c.log|
    ensures Rested(c, plan)
  {
    forall o | o in c.ledger ensures c.ledger[o] == Final(c.ledger[o].msg, plan) {
      RestingEntry(c, plan, c.ledger[o].msg.offset);
    }
    assert !Moves(c, plan, Receive);
  }

  // ---------------------------------------------------------------- confluence

  ghost function OffsetsOf(msgs: seq<Message>): set<int> {
    set m | m in msgs :: m.offset
  }

  lemma {:induction false} OffsetsOfSize(msgs: seq<Message>)
    requires Increasing(msgs)
    ensures |OffsetsOf(msgs)| == |msgs|
  {
    if msgs != [] {
      var n := |msgs| - 1;
      OffsetsOfSize(msgs[..n]);
      LastOffset(msgs);
      assert |OffsetsOf(msgs[..n]) + {msgs[n].offset}| == n + 1;
    }
  }

  lemma LastOffset(msgs: seq<Message>)
    requires Increasing(msgs) && msgs != []
    ensures var n := |msgs| - 1;
            OffsetsOf(msgs) == OffsetsOf(msgs[..n]) + {msgs[n].offset} && msgs[n].offset !in OffsetsOf(msgs[..n])
  {
    var n := |msgs| - 1;
    assert msgs == msgs[..n] + [msgs[n]];
    forall o | o in OffsetsOf(msgs[..n]) ensures o < msgs[n].offset {
      var i :| 0 <= i < n && msgs[..n][i].offset == o;
      assert msgs[i].offset < msgs[n].offset;
    }
  }

  lemma EqualBySize(a: set<int>, b: set<int>)
    requires a <= b && |a| == |b|
    ensures a == b
  {
    assert b == a + (b - a);
  }

  /** The ledger holds the received messages and nothing else. */
  lemma LedgerKeys(log: seq<Message>, read: nat, start: int, ledger: Ledger)
    requires LedgerOk(log, read, start, ledger)
    ensures ledger.Keys == OffsetsOf(log[..read])
  {
    assert forall i :: 0 <= i < read ==> log[..read][i] == log[i];
    OffsetsOfSize(log[..read]);
    forall o | o in OffsetsOf(log[..read]) ensures o in ledger {
      var m :| m in log[..read] && m.offset == o;
      var i :| 0 <= i < read && log[i] == m;
    }
    EqualBySize(OffsetsOf(log[..read]), ledger.Keys);
  }

  lemma LedgerEntryIndex(c: Claim, o: int) returns (i: nat)
    requires LedgerOk(c.log, c.read, c.start, c.ledger) && o in c.ledger
    ensures i < c.read && c.log[i].offset == o && c.ledger[o].msg == c.log[i]
  {
    LedgerKeys(c.log, c.read, c.start, c.ledger);
    var m :| m in c.log[..c.read] && m.offset == o;
    i :| 0 <= i < c.read && c.log[i] == m;
  }

  /** Two rested states of one log agree wherever both have received; so the one that received
      more has its frontier at least as far. */
  lemma RestedAgree(c1: Claim, c2: Claim, plan: Plan)
    requires AsPlanned(c1, plan) && AsPlanned(c2, plan) && c1.log == c2.log && c1.read <= c2.read
    ensures forall o :: o in c1.ledger ==> o in c2.ledger && c2.ledger[o] == c1.ledger[o]
    ensures c1.read > 0 ==> c1.start == c2.start && Frontier(c1) <= Frontier(c2)
  {
    forall o | o in c1.ledger ensures o in c2.ledger && c2.ledger[o] == c1.ledger[o] {
      var i := LedgerEntryIndex(c1, o);
      assert c2.ledger[c2.log[i].offset].msg == c2.log[i];
    }
    ReachGrows(c1.ledger, c2.ledger, c1.start);
  }

  /** If the state that received less stopped at an earlier frontier, then what it lacks is the
      message at its frontier, and it tracks nothing. */
  lemma StoppedBefore(c1: Claim, c2: Claim, plan: Plan)
    requires AsPlanned(c1, plan) && AsPlanned(c2, plan) && c1.log == c2.log && 0 < c1.read < c2.read
    requires Frontier(c1) < Frontier(c2)
    ensures Tracked(c1) == {}
  {
    RestedAgree(c1, c2, plan);
    var o := Frontier(c1);
    var i := LedgerEntryIndex(c2, o);
    assert o !in c1.ledger;
    assert i >= c1.read;
    assert c1.log[c1.read - 1].offset < c1.log[i].offset;
  }

  lemma RestedReadEqually(c1: Claim, c2: Claim, plan: Plan)
    requires Rested(c1, plan) && Rested(c2, plan) && c1.log == c2.log && c1.window == c2.window
    requires c1.read <= c2.read
    ensures c1.read == c2.read
  {
    if c1.read < c2.read {
      RestedAgree(c1, c2, plan);
      if c1.read == 0 {
        NothingReceived(c1);
      } else if Frontier(c1) < Frontier(c2) {
        StoppedBefore(c1, c2, plan);
      } else {
        TracksMore(c1, c2, plan);
      }
    }
  }

  /** With the same frontier, the state that received more tracks more. */
  lemma TracksMore(c1: Claim, c2: Claim, plan: Plan)
    requires AsPlanned(c1, plan) && AsPlanned(c2, plan) && c1.log == c2.log && 0 < c1.read < c2.read
    requires Frontier(c1) == Frontier(c2)
    ensures |Tracked(c1)| < |Tracked(c2)|
  {
    RestedAgree(c1, c2, plan);
    var next := c1.log[c1.read].offset;
    NextIsNew(c1.log, c1.read, c1.start, c1.ledger);
    FrontierBelow(c1.ledger, c1.start, next);
    assert next in c2.ledger;
    SubsetSize(Tracked(c1) + {next}, Tracked(c2));
  }

  lemma RestedUnique(c1: Claim, c2: Claim, plan: Plan)
    requires Rested(c1, plan) && Rested(c2, plan) && c1.log == c2.log && c1.window == c2.window
    ensures c1.ledger == c2.ledger && c1.read == c2.read && Frontier(c1) == Frontier(c2) && Tracked(c1) == Tracked(c2)
    ensures (c1.marks == [] <==> c2.marks == []) && (c1.marks != [] ==> c1.marks[|c1.marks| - 1] == c2.marks[|c2.marks| - 1])
  {
    if c1.read <= c2.read {
      RestedReadEqually(c1, c2, plan);
    } else {
      RestedReadEqually(c2, c1, plan);
    }
    RestedAgree(c1, c2, plan);
    RestedAgree(c2, c1, plan);
    assert c1.ledger == c2.ledger;
  }

  /** Two uncanceled runs over the same messages, with the same answers from handlers and DLQ, that
      have come to rest have the same ledger, frontier, tracked offsets and last mark, however
      completions and DLQ results interleaved with reads and with the back-pressure of the window. */
  lemma {:induction false} Confluence(window: nat, hasDlq: bool, log: seq<Message>, plan: Plan, s1: seq<Event>, s2: seq<Event>)
    requires window > 0 && Increasing(log) && (forall o :: o in plan.dlq && plan.dlq[o] ==> hasDlq)
    requires var c := Init(window, hasDlq, log);
             FollowsAll(c, plan, s1) && FollowsAll(c, plan, s2) && AtRest(Exec(c, s1), plan) && AtRest(Exec(c, s2), plan)
    ensures var c1, c2 := Exec(Init(window, hasDlq, log), s1), Exec(Init(window, hasDlq, log), s2);
            && c1.ledger == c2.ledger && Frontier(c1) == Frontier(c2) && Tracked(c1) == Tracked(c2)
            && (c1.marks == [] <==> c2.marks == [])
            && (c1.marks != [] ==> c1.marks[|c1.marks| - 1] == c2.marks[|c2.marks| - 1])
  {
    RunRests(window, hasDlq, log, plan, s1);
    RunRests(window, hasDlq, log, plan, s2);
    RestedUnique(Exec(Init(window, hasDlq, log), s1), Exec(Init(window, hasDlq, log), s2), plan);
  }

  lemma {:induction false} RunRests(window: nat, hasDlq: bool, log: seq<Message>, plan: Plan, s: seq<Event>)
    requires window > 0 && Increasing(log) && (forall o :: o in plan.dlq && plan.dlq[o] ==> hasDlq)
    requires FollowsAll(Init(window, hasDlq, log), plan, s) && AtRest(Exec(Init(window, hasDlq, log), s), plan)
    ensures var c := Exec(Init(window, hasDlq, log), s); Rested(c, plan) && c.window == window && c.log == log
  {
    var c0 := Init(window, hasDlq, log);
    InitInv(window, hasDlq, log);
    ExecKeeps(c0, s);
    ExecAgrees(c0, plan, s);
    ExecConstants(c0, s);
    ClosedAtEnd(c0, plan, s);
    RestIsRested(Exec(c0, s), plan);
  }

  lemma {:induction false} ClosedAtEnd(c: Claim, plan: Plan, schedule: seq<Event>)
    requires FollowsAll(c, plan, schedule) && (c.closed ==> c.read == |c.log|)
    ensures var c' := Exec(c, schedule); c'.closed ==> c'.read == |c'.log|
    decreases |schedule|
  {
    if schedule != [] {
      if Enabled(c, schedule[0]) {
        ClosedStep(c, plan, schedule[0]);
      }
      ClosedAtEnd(Apply(c, schedule[0]), plan, schedule[1..]);
    }
  }

  lemma ClosedStep(c: Claim, plan: Plan, e: Event)
    requires Enabled(c, e) && Follows(c, plan, e) && (c.closed ==> c.read == |c.log|)
    ensures Fire(c, e).closed ==> Fire(c, e).read == |Fire(c, e).log|
  {
    match e
    case TakeCompletion => CompletionConstants(c); assert OnCompletion(c).closed == c.closed && OnCompletion(c).read == c.read;
    case TakeDlqResult => DlqResultConstants(c);
    case _ =>
  }

  // ---------------------------------------------------------------- gaps in the offsets

  /** Every handler and DLQ answer allows the message to be committed. */
  ghost predicate AllGood(log: seq<Message>, plan: Plan) {
    forall i :: 0 <= i < |log| ==> Final(log[i], plan).Ready()
  }

  /** When every message may be committed, a claim at rest has committed everything if and only if
      the offsets are contiguous. With a gap (a compacted topic, or transaction markers) the
      frontier waits for an offset that never comes. */
  lemma CommitsAllIffContiguous(c: Claim, plan: Plan)
    requires Rested(c, plan) && AllGood(c.log, plan) && |c.log| > 0
    ensures Frontier(c) == c.log[|c.log| - 1].offset + 1 <==> Contiguous(c.log)
  {
    AllReady(c, plan);
    if Contiguous(c.log) {
      ContiguousCommitsAll(c, plan);
    }
    if Frontier(c) == c.log[|c.log| - 1].offset + 1 {
      CommittedAllIsContiguous(c, plan);
    }
  }

  /** The same for every uncanceled run that has come to rest: its last mark is the last message of
      the claim if and only if the offsets have no gap. */
  lemma {:induction false} RunCommitsAllIffContiguous(window: nat, hasDlq: bool, log: seq<Message>, plan: Plan, s: seq<Event>)
    requires window > 0 && Increasing(log) && |log| > 0 && (forall o :: o in plan.dlq && plan.dlq[o] ==> hasDlq)
    requires FollowsAll(Init(window, hasDlq, log), plan, s) && AtRest(Exec(Init(window, hasDlq, log), s), plan)
    requires AllGood(log, plan)
    ensures var c := Exec(Init(window, hasDlq, log), s);
            Contiguous(log) <==> c.marks != [] && c.marks[|c.marks| - 1] == log[|log| - 1].offset
  {
    hide Exec, FollowsAll, AtRest, AllGood, PhaseOk, Rested;
    var c := Exec(Init(window, hasDlq, log), s);
    RunRests(window, hasDlq, log, plan, s);
    InitInv(window, hasDlq, log);
    ExecKeeps(Init(window, hasDlq, log), s);
    CommitsAllIffContiguous(c, plan);
    LastMark(Frontier(c), c.start, c.marks);
  }

  lemma LastMark(frontier: int, start: int, marks: seq<int>)
    requires MarkOk(frontier, start, marks)
    ensures marks != [] ==> marks[|marks| - 1] == frontier - 1
    ensures marks == [] ==> frontier == start
  {
  }

  lemma AllReady(c: Claim, plan: Plan)
    requires Rested(c, plan) && AllGood(c.log, plan)
    ensures forall o :: o in c.ledger ==> c.ledger[o].Ready()
  {
    forall o | o in c.ledger ensures c.ledger[o].Ready() {
      var i := LedgerEntryIndex(c, o);
    }
  }

  lemma ContiguousCommitsAll(c: Claim, plan: Plan)
    requires Rested(c, plan) && |c.log| > 0 && Contiguous(c.log)
    requires forall o :: o in c.ledger ==> c.ledger[o].Ready()
    ensures Frontier(c) == c.log[|c.log| - 1].offset + 1
  {
    if c.read == 0 {
      NothingReceived(c);
    } else {
      var first := c.log[0].offset;
      forall k | first <= k < first + c.read ensures k in c.ledger {
        assert c.log[k - first].offset == k;
      }
      assert first + c.read !in c.ledger;
      ReachIs(c.ledger, first, first + c.read);
      assert Tracked(c) == {};
    }
  }

  lemma CommittedAllIsContiguous(c: Claim, plan: Plan)
    requires AsPlanned(c, plan) && |c.log| > 0
    requires Frontier(c) == c.log[|c.log| - 1].offset + 1
    ensures Contiguous(c.log)
  {
    var first, n := c.log[0].offset, |c.log|;
    assert c.read > 0;
    assert c.read == n by {
      if c.read < n {
        FrontierBelow(c.ledger, c.start, c.log[c.read - 1].offset + 1);
      }
    }
    ClimbsAtLeast(c.log, n - 1);
    forall k | first <= k < Frontier(c) ensures k in c.ledger.Keys {
    }
    SubsetSize(Interval(first, Frontier(c)), c.ledger.Keys);
    forall i | 0 <= i < n ensures c.log[i].offset == first + i {
      ClimbsAtLeast(c.log, i);
      ClimbsAtMost(c.log, i);
    }
  }

  lemma {:induction false} ClimbsAtLeast(log: seq<Message>, i: nat)
    requires Increasing(log) && i < |log|
    ensures log[i].offset >= log[0].offset + i
  {
    if i > 0 {
      ClimbsAtLeast(log, i - 1);
    }
  }

  lemma {:induction false} ClimbsAtMost(log: seq<Message>, i: nat)
    requires Increasing(log) && i < |log| && log[|log| - 1].offset <= log[0].offset + |log| - 1
    ensures log[i].offset <= log[0].offset + i
    decreases |log| - i
  {
    if i < |log| - 1 {
      ClimbsAtMost(log, i + 1);
    }
  }

  /** The smallest such claim: offsets 0 and 2, two successful handlers, window 4. It comes to rest
      with offset 0 marked and offset 2 never committed. */
  lemma {:induction false} GapStallsForever() returns (schedule: seq<Event>)
    ensures var log := [Message(0, true), Message(2, true)];
            var plan := Plan(map[0 := Succeeded, 2 := Succeeded], map[]);
            var c := Exec(Init(4, true, log), schedule);
            && FollowsAll(Init(4, true, log), plan, schedule) && AtRest(c, plan)
            && Frontier(c) == 1 && c.marks == [0] && Tracked(c) == {2} && c.phase == Running
  {
    var log := [Message(0, true), Message(2, true)];
    var plan := Plan(map[0 := Succeeded, 2 := Succeeded], map[]);
    var c0 := Init(4, true, log);
    InitInv(4, true, log);
    schedule := SomeRunRests(c0, plan);
    RunRests(4, true, log, plan, schedule);
    var c := Exec(c0, schedule);
    GapStateAtRest(c, plan);
    ExecKeeps(c0, schedule);
    ExecAgrees(c0, plan, schedule);
  }

  lemma GapStateAtRest(c: Claim, plan: Plan)
    requires Rested(c, plan) && c.window == 4 && c.log == [Message(0, true), Message(2, true)]
    requires plan == Plan(map[0 := Succeeded, 2 := Succeeded], map[])
    ensures Frontier(c) == 1 && c.marks == [0] && Tracked(c) == {2}
  {
    LedgerKeys(c.log, c.read, c.start, c.ledger);
    if c.read < 2 {
      SubsetSize(Tracked(c), c.ledger.Keys);
    }
    assert c.log[0].offset in c.ledger && c.log[1].offset in c.ledger;
    assert c.ledger[0] == Final(c.log[0], plan);
    assert c.log[..2] == c.log;
    assert OffsetsOf(c.log) == {0, 2};
    ReachIs(c.ledger, 0, 1);
    assert c.marks[0] == 0 && c.marks[|c.marks| - 1] == 0;
  }
}

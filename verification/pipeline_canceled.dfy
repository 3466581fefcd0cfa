/** What becomes of a claim after its session is canceled: whose results still count, that flush drains,
    and exactly when it needs its timeout. */
module PipelineCanceled {
  import opened PipelineModel
  import opened PipelineInvariants
  import opened PipelineTheorems
  import opened PipelineConfluence
  import C = PipelineClaims

  // ---------------------------------------------------------------- whose results count

  /** The flags of a settled entry: its result counts only if its bridge took it before the
      cancellation (`early`), and then as it would have without one, except that flush starts no DLQ
      send for a failed envelope. */
  ghost predicate FlagOk(early: bool, e: Entry, done: map<int, Outcome>, dlqDone: map<int, bool>) {
    var o := e.msg.offset;
    && o in done
    && (e.commitable <==> early && (done[o] == Succeeded || !e.msg.isEnvelope || (!e.dlqPending && o in dlqDone && dlqDone[o])))
    && (e.dlqPending || o in dlqDone ==> early && e.msg.isEnvelope && done[o] == Failed)
  }

  ghost predicate FlagsOk(early: set<int>, ledger: Ledger, done: map<int, Outcome>, dlqDone: map<int, bool>) {
    forall o :: o in ledger && ledger[o].settled ==> FlagOk(o in early, ledger[o], done, dlqDone)
  }

  /** A completion under way is marked as canceled exactly if it was taken after the cancellation. */
  ghost predicate MarkedLate(early: set<int>, waiting: set<int>, holding: map<int, Completion>, compCh: seq<Completion>) {
    && (forall o :: o in waiting ==> o !in early)
    && (forall o :: o in holding ==> (holding[o].canceled <==> o !in early))
    && (forall i :: 0 <= i < |compCh| ==> (compCh[i].canceled <==> compCh[i].offset !in early))
  }

  ghost predicate Late(c: Claim, early: set<int>) {
    && c.canceled && early <= c.ledger.Keys
    && MarkedLate(early, c.waiting, c.holding, c.compCh)
    && FlagsOk(early, c.ledger, c.done, c.dlqDone)
  }

  /** The results that bridges have taken so far. */
  ghost function Taken(c: Claim): set<int> {
    c.ledger.Keys - c.waiting
  }

  lemma CancelSplits(c: Claim)
    requires Inv(c) && !c.canceled
    ensures Late(c.(canceled := true), Taken(c))
  {
    hide LedgerOk, DlqOk, MarkOk, AlertOk, PhaseOk, CarriedOk;
    EarlyFlags(c);
    forall i | 0 <= i < |c.compCh| ensures !c.compCh[i].canceled && c.compCh[i].offset in Taken(c) {
      assert Carries(c.ledger, c.done, c.canceled, c.compCh[i]);
    }
    forall o | o in c.holding ensures !c.holding[o].canceled && o in Taken(c) {
      assert Carries(c.ledger, c.done, c.canceled, c.holding[o]);
    }
  }

  lemma EarlyFlags(c: Claim)
    requires Inv(c) && !c.canceled
    ensures FlagsOk(Taken(c), c.ledger, c.done, c.dlqDone)
  {
    hide DlqOk, MarkOk, AlertOk, PhaseOk, CarriedOk, Carries, DistinctOffsets;
  }

  // ---------------------------------------------------------------- every step after it

  lemma NewEntryFlags(early: set<int>, ledger: Ledger, done: map<int, Outcome>, dlqDone: map<int, bool>, m: Message)
    requires FlagsOk(early, ledger, done, dlqDone) && m.offset !in ledger
    ensures FlagsOk(early, Fresh(ledger, m), done, dlqDone)
  {
  }

  lemma LateReceive(c: Claim, early: set<int>)
    requires Inv(c) && Late(c, early) && Enabled(c, Receive)
    ensures Late(Fire(c, Receive), early)
  {
    hide EntryOk, BridgeOk, DlqOk, MarkOk, AlertOk, PhaseOk, FlagsOk, LedgerOk, TrackedOf;
    var m := c.log[c.read];
    NextIsNew(c.log, c.read, c.start, c.ledger);
    NewEntryFlags(early, c.ledger, c.done, c.dlqDone, m);
  }

  lemma LateHandler(c: Claim, early: set<int>, o: nat, outcome: Outcome)
    requires Inv(c) && Late(c, early) && Enabled(c, HandlerDone(o, outcome))
    ensures Late(Fire(c, HandlerDone(o, outcome)), early)
  {
    hide LedgerOk, BridgeOk, DlqOk, MarkOk, AlertOk, PhaseOk;
    assert forall k :: k in c.ledger && c.ledger[k].settled ==> k in c.done;
    LedgerNames(c);
  }

  lemma LedgerNames(c: Claim)
    requires Inv(c)
    ensures forall o :: o in c.ledger ==> c.ledger[o].msg.offset == o
  {
    hide EntryOk, BridgeOk, CarriedOk, DlqOk, MarkOk, DeterminedOk, AlertOk, PhaseOk;
  }

  lemma LateBridge(c: Claim, early: set<int>, e: Event)
    requires Inv(c) && Late(c, early) && Enabled(c, e) && (e.BridgeTake? || e.BridgeSend? || e.BridgeGiveUp?)
    ensures Late(Fire(c, e), early)
  {
    hide LedgerOk, EntryOk, DlqOk, MarkOk, AlertOk, PhaseOk, FlagsOk;
    if e.BridgeSend? {
      var compCh' := c.compCh + [c.holding[e.o]];
      assert forall i :: 0 <= i < |c.compCh| ==> compCh'[i] == c.compCh[i];
    }
  }

  lemma LateDlqFinish(c: Claim, early: set<int>, o: nat, ok: bool)
    requires Inv(c) && Late(c, early) && Enabled(c, DlqFinish(o, ok))
    ensures Late(Fire(c, DlqFinish(o, ok)), early)
  {
    hide BridgeOk, MarkOk, AlertOk, PhaseOk, MarkedLate;
    LedgerNames(c);
    assert c.ledger[o].dlqPending && c.ledger[o].settled && FlagOk(o in early, c.ledger[o], c.done, c.dlqDone);
  }

  /** What the loop and flush do to everything but the ledger and what follows from it. */
  lemma TakenFields(c: Claim)
    ensures c.compCh != [] ==> var c' := OnCompletion(c);
              && c'.waiting == c.waiting && c'.holding == c.holding && c'.compCh == c.compCh[1..] && c'.canceled == c.canceled
              && c'.done == c.done && c'.dlqDone == c.dlqDone && c'.phase == c.phase
    ensures c.dlqCh != [] ==> var c' := OnDlqResult(c);
              && c'.waiting == c.waiting && c'.holding == c.holding && c'.compCh == c.compCh && c'.canceled == c.canceled
              && c'.done == c.done && c'.dlqDone == c.dlqDone && c'.phase == c.phase
  {
  }

  lemma HeadOnlyPhase(c: Claim)
    ensures LoopHead(c) == c.(phase := LoopHead(c).phase)
  {
  }

  lemma SettledFlag(phase: Phase, early: bool, e: Entry, x: Completion, done: map<int, Outcome>, dlqDone: map<int, bool>)
    requires !e.settled && !e.dlqPending && !e.commitable && e.msg.offset == x.offset
    requires x.offset in done && done[x.offset] == x.outcome && x.offset !in dlqDone
    requires x.canceled <==> !early
    ensures FlagOk(early, Settled(phase, e, x), done, dlqDone)
  {
  }

  lemma HeadFacts(c: Claim)
    requires Inv(c) && c.compCh != []
    ensures var x := c.compCh[0];
            && x.offset in c.ledger && x.offset in c.done && c.done[x.offset] == x.outcome && x.offset !in c.dlqDone
            && var e := c.ledger[x.offset]; !e.settled && !e.dlqPending && !e.commitable && e.msg.offset == x.offset
  {
    hide DlqOk, MarkOk, AlertOk, PhaseOk, DeterminedOk, CarriedOk;
    assert Carries(c.ledger, c.done, c.canceled, c.compCh[0]);
  }

  lemma LateCompletion(c: Claim, early: set<int>)
    requires Inv(c) && Late(c, early) && Enabled(c, TakeCompletion)
    ensures Late(Fire(c, TakeCompletion), early)
  {
    hide LedgerOk, EntryOk, BridgeOk, DlqOk, MarkOk, AlertOk, PhaseOk, OnCompletion, LoopHead, FlagOk, Settled;
    var x := c.compCh[0];
    HeadCompletion(c);
    HeadFacts(c);
    TakenFields(c);
    HeadOnlyPhase(OnCompletion(c));
    CompletionLedger(c);
    SettledFlag(c.phase, x.offset in early, c.ledger[x.offset], x, c.done, c.dlqDone);
    assert forall i :: 0 <= i < |c.compCh| - 1 ==> c.compCh[1..][i] == c.compCh[i + 1];
  }

  lemma LateDlqResult(c: Claim, early: set<int>)
    requires Inv(c) && Late(c, early) && Enabled(c, TakeDlqResult)
    ensures Late(Fire(c, TakeDlqResult), early)
  {
    hide LedgerOk, EntryOk, BridgeOk, DlqOk, MarkOk, AlertOk, PhaseOk, OnDlqResult, LoopHead, MarkedLate;
    var r := c.dlqCh[0];
    HeadDlqResult(c);
    PendingIsSettled(c, r.offset);
    TakenFields(c);
    HeadOnlyPhase(OnDlqResult(c));
    DlqResultLedger(c);
    LedgerNames(c);
    assert FlagOk(r.offset in early, c.ledger[r.offset], c.done, c.dlqDone);
  }

  lemma PendingIsSettled(c: Claim, o: int)
    requires Inv(c) && o in c.ledger && c.ledger[o].dlqPending
    ensures c.ledger[o].settled
  {
    hide LedgerOk, BridgeOk, DlqOk, MarkOk, AlertOk, PhaseOk, DeterminedOk, CarriedOk;
  }

  lemma LatePhase(c: Claim, early: set<int>, e: Event)
    requires Late(c, early) && Enabled(c, e) && (e.ReceiveNil? || e.EnterFlush? || e.FlushTimeout?)
    ensures Late(Fire(c, e), early)
  {
    hide FlagsOk, MarkedLate, LoopHead;
    HeadOnlyPhase(c.(closed := true));
    HeadOnlyPhase(c.(phase := Flushing));
  }

  lemma LateStep(c: Claim, early: set<int>, e: Event)
    requires Inv(c) && Late(c, early) && Enabled(c, e)
    ensures Late(Fire(c, e), early)
  {
    hide Inv, Fire;
    match e
    case Receive => LateReceive(c, early);
    case HandlerDone(o, outcome) => LateHandler(c, early, o, outcome);
    case BridgeTake(o) => LateBridge(c, early, e);
    case BridgeSend(o) => LateBridge(c, early, e);
    case BridgeGiveUp(o) => LateBridge(c, early, e);
    case DlqFinish(o, ok) => LateDlqFinish(c, early, o, ok);
    case TakeCompletion => LateCompletion(c, early);
    case TakeDlqResult => LateDlqResult(c, early);
    case ReceiveNil => LatePhase(c, early, e);
    case EnterFlush => LatePhase(c, early, e);
    case FlushTimeout => LatePhase(c, early, e);
    case Cancel =>
  }

  lemma {:induction false} LateRun(c: Claim, early: set<int>, later: seq<Event>)
    requires Inv(c) && Late(c, early)
    ensures Late(Exec(c, later), early) && Inv(Exec(c, later))
    decreases |later|
  {
    hide Inv, Late, Enabled, Fire;
    if later != [] {
      if Enabled(c, later[0]) {
        LateStep(c, early, later[0]);
        FireKeeps(c, later[0]);
      }
      LateRun(Apply(c, later[0]), early, later[1..]);
    }
  }

  /** A claim canceled in the state that an uncanceled run reaches, and any continuation. */
  ghost function Canceled(window: nat, hasDlq: bool, log: seq<Message>, before: seq<Event>, later: seq<Event>): Claim {
    Exec(Reached(window, hasDlq, log, before), [Cancel] + later)
  }

  lemma {:induction false} CanceledIsLate(window: nat, hasDlq: bool, log: seq<Message>, before: seq<Event>, later: seq<Event>)
    requires window > 0 && Increasing(log) && !Reached(window, hasDlq, log, before).canceled
    ensures var c := Reached(window, hasDlq, log, before); var c' := Canceled(window, hasDlq, log, before, later);
            Inv(c') && Late(c', Taken(c))
  {
    hide Inv, Late;
    var c := Reached(window, hasDlq, log, before);
    ReachedInv(window, hasDlq, log, before);
    CancelSplits(c);
    FireKeeps(c, Cancel);
    LateRun(c.(canceled := true), Taken(c), later);
    assert ([Cancel] + later)[1..] == later;
  }

  /** A completion that a bridge holds or has sent. */
  ghost predicate UnderWay(c: Claim, x: Completion) {
    x in c.compCh || (x.offset in c.holding && c.holding[x.offset] == x)
  }

  /** A completion says that it was canceled if and only if its bridge took the result after the
      cancellation: never before one, and afterwards exactly those not taken at that moment. */
  lemma {:induction false} RunCanceledIffLate(window: nat, hasDlq: bool, log: seq<Message>, before: seq<Event>, later: seq<Event>, x: Completion)
    requires window > 0 && Increasing(log) && !Reached(window, hasDlq, log, before).canceled
    ensures var c := Reached(window, hasDlq, log, before); var c' := Canceled(window, hasDlq, log, before, later);
            && (UnderWay(c, x) ==> !x.canceled)
            && (UnderWay(c', x) ==> (x.canceled <==> x.offset !in Taken(c)))
  {
    hide Inv, Late, UnderWay;
    var c := Reached(window, hasDlq, log, before);
    var c' := Canceled(window, hasDlq, log, before, later);
    ReachedInv(window, hasDlq, log, before);
    CanceledIsLate(window, hasDlq, log, before, later);
    if UnderWay(c, x) {
      CanceledMarks(c, Taken(c), x);
    }
    if UnderWay(c', x) {
      CanceledMarks(c', Taken(c), x);
    }
  }

  lemma CanceledMarks(c: Claim, early: set<int>, x: Completion)
    requires Inv(c) && UnderWay(c, x)
    ensures !c.canceled ==> !x.canceled
    ensures Late(c, early) ==> (x.canceled <==> x.offset !in early)
  {
    hide LedgerOk, EntryOk, DlqOk, MarkOk, AlertOk, PhaseOk, CarriedOk, DeterminedOk, FlagsOk;
    if x in c.compCh {
      var i :| 0 <= i < |c.compCh| && c.compCh[i] == x;
      assert Carries(c.ledger, c.done, c.canceled, c.compCh[i]);
    } else {
      assert Carries(c.ledger, c.done, c.canceled, c.holding[x.offset]);
    }
  }

  /** After a cancellation, in the loop and in flush: an entry once settled is committable if and only if
      its result was taken before, and is a success, or the failure of a regular message, or the failure
      of an envelope whose DLQ send returned nil. */
  lemma {:induction false} RunSettledAfterCancel(window: nat, hasDlq: bool, log: seq<Message>, before: seq<Event>, later: seq<Event>, o: int)
    requires window > 0 && Increasing(log) && !Reached(window, hasDlq, log, before).canceled
    requires var c' := Canceled(window, hasDlq, log, before, later); o in c'.ledger && c'.ledger[o].settled
    ensures var c := Reached(window, hasDlq, log, before); var c' := Canceled(window, hasDlq, log, before, later);
            var e := c'.ledger[o];
            && o in c'.done
            && (e.commitable <==>
                  o in Taken(c) && (c'.done[o] == Succeeded || !e.msg.isEnvelope || (!e.dlqPending && o in c'.dlqDone && c'.dlqDone[o])))
  {
    hide Inv;
    CanceledIsLate(window, hasDlq, log, before, later);
    LedgerNames(Canceled(window, hasDlq, log, before, later));
  }

  /** What flush settles: with `middle` the claim has begun to flush, with `later` the entry is settled. It
      is committable if and only if its result was taken before the cancellation and is a success or the
      failure of a regular message. */
  lemma {:induction false} RunFlushSettles(window: nat, hasDlq: bool, log: seq<Message>, before: seq<Event>, middle: seq<Event>,
                                           later: seq<Event>, o: int)
    requires window > 0 && Increasing(log) && !Reached(window, hasDlq, log, before).canceled
    requires var c1 := Canceled(window, hasDlq, log, before, middle); c1.phase != Running && o in c1.ledger && !c1.ledger[o].settled
    requires var c2 := Exec(Canceled(window, hasDlq, log, before, middle), later); o in c2.ledger && c2.ledger[o].settled
    ensures var c := Reached(window, hasDlq, log, before); var c2 := Exec(Canceled(window, hasDlq, log, before, middle), later);
            && o in c2.done
            && (c2.ledger[o].commitable <==> o in Taken(c) && (c2.done[o] == Succeeded || !c2.ledger[o].msg.isEnvelope))
  {
    hide Inv;
    var c1 := Canceled(window, hasDlq, log, before, middle);
    CanceledIsLate(window, hasDlq, log, before, middle);
    UnsettledHasNoDlq(c1, o);
    C.FlushStartsNoDlq(c1, later);
    LateRun(c1, Taken(Reached(window, hasDlq, log, before)), later);
    LedgerNames(Exec(c1, later));
  }

  lemma UnsettledHasNoDlq(c: Claim, o: int)
    requires Inv(c) && o in c.ledger && !c.ledger[o].settled
    ensures o !in c.dlqRunning && o !in c.dlqDone
  {
    hide LedgerOk, BridgeOk, MarkOk, AlertOk, PhaseOk, DeterminedOk, CarriedOk;
    assert forall k :: k in c.dlqRunning ==> k in c.ledger && c.ledger[k].dlqPending;
  }

  // ---------------------------------------------------------------- flush drains

  ghost predicate Drained(c: Claim) {
    c.phase == Returned ==> UnresolvedOffsets(c) == {}
  }

  lemma HeadDrains(c: Claim)
    requires Drained(c)
    ensures Drained(LoopHead(c))
  {
  }

  lemma DrainedStep(c: Claim, e: Event)
    requires Drained(c) && Enabled(c, e) && !e.FlushTimeout?
    ensures Drained(Fire(c, e))
  {
    hide UnresolvedOffsets, LoopHead, OnCompletion, OnDlqResult;
    match e
    case TakeCompletion => TakenFields(c); HeadDrains(OnCompletion(c));
    case TakeDlqResult => TakenFields(c); HeadDrains(OnDlqResult(c));
    case ReceiveNil => HeadDrains(c.(closed := true));
    case EnterFlush => HeadDrains(c.(phase := Flushing));
    case _ => BesideDrains(c, e);
  }

  lemma BesideDrains(c: Claim, e: Event)
    requires Drained(c) && Enabled(c, e) && !e.FlushTimeout?
    requires e !in {TakeCompletion, TakeDlqResult, ReceiveNil, EnterFlush}
    ensures Drained(Fire(c, e))
  {
  }

  lemma {:induction false} RunDrains(c: Claim, later: seq<Event>)
    requires Drained(c) && FlushTimeout !in later
    ensures Drained(Exec(c, later))
    decreases |later|
  {
    hide Drained, Enabled, Fire;
    if later != [] {
      if Enabled(c, later[0]) {
        DrainedStep(c, later[0]);
      }
      RunDrains(Apply(c, later[0]), later[1..]);
    }
  }

  /** A claim that returns without a timeout of flush leaves nothing unsettled and no DLQ send under way,
      canceled or not. */
  lemma {:induction false} RunReturnsDrained(window: nat, hasDlq: bool, log: seq<Message>, schedule: seq<Event>)
    requires FlushTimeout !in schedule && Reached(window, hasDlq, log, schedule).phase == Returned
    ensures UnresolvedOffsets(Reached(window, hasDlq, log, schedule)) == {}
  {
    RunDrains(Init(window, hasDlq, log), schedule);
  }

  // ---------------------------------------------------------------- what flush waits for

  /** The result of this entry has reached the claim, or some bridge brings it. */
  ghost predicate Carried(c: Claim, o: int) {
    o in c.ledger && (c.ledger[o].settled || o in c.waiting || o in c.holding || o in Offsets(c.compCh))
  }

  lemma LastOfChannel(cs: seq<Completion>, x: Completion)
    ensures Offsets(cs + [x]) == Offsets(cs) + {x.offset}
    ensures Offsets([x] + cs) == {x.offset} + Offsets(cs)
  {
    assert forall y :: y in cs + [x] <==> y in cs || y == x;
    assert forall y :: y in [x] + cs <==> y in cs || y == x;
  }

  lemma CompletionCarries(c: Claim, o: int)
    requires Inv(c) && Enabled(c, TakeCompletion) && o in c.ledger
    ensures Carried(Fire(c, TakeCompletion), o) <==> Carried(c, o)
  {
    hide LedgerOk, EntryOk, BridgeOk, DlqOk, MarkOk, AlertOk, PhaseOk, OnCompletion, LoopHead, Settled, Offsets;
    var x := c.compCh[0];
    HeadCompletion(c);
    TakenFields(c);
    HeadOnlyPhase(OnCompletion(c));
    CompletionLedger(c);
    SettlesIt(c.phase, c.ledger[x.offset], x);
    LastOfChannel(c.compCh[1..], x);
    assert c.compCh == [x] + c.compCh[1..];
  }

  lemma SettlesIt(phase: Phase, e: Entry, x: Completion)
    ensures Settled(phase, e, x).settled
  {
  }

  lemma DlqResultCarries(c: Claim, o: int)
    requires Inv(c) && Enabled(c, TakeDlqResult) && o in c.ledger
    ensures Carried(Fire(c, TakeDlqResult), o) <==> Carried(c, o)
  {
    hide LedgerOk, EntryOk, BridgeOk, DlqOk, MarkOk, AlertOk, PhaseOk, OnDlqResult, LoopHead, Offsets;
    HeadDlqResult(c);
    TakenFields(c);
    HeadOnlyPhase(OnDlqResult(c));
    DlqResultLedger(c);
  }

  lemma BridgeCarries(c: Claim, e: Event, o: int)
    requires Inv(c) && Enabled(c, e) && o in c.ledger && !e.TakeCompletion? && !e.TakeDlqResult? && e != Receive
    ensures Carried(c, o) && !(e.BridgeGiveUp? && e.o == o) ==> Carried(Fire(c, e), o)
    ensures Carried(Fire(c, e), o) ==> Carried(c, o)
  {
    hide LedgerOk, EntryOk, DlqOk, MarkOk, AlertOk, PhaseOk, LoopHead, Offsets;
    OtherLedger(c, e);
    HeadOnlyPhase(c.(closed := true));
    HeadOnlyPhase(c.(phase := Flushing));
    if e.BridgeSend? {
      LastOfChannel(c.compCh, c.holding[e.o]);
    }
  }

  lemma ReceiveCarries(c: Claim, o: int)
    requires Inv(c) && Enabled(c, Receive) && o in c.ledger
    ensures Carried(Fire(c, Receive), o) <==> Carried(c, o)
  {
    hide EntryOk, BridgeOk, DlqOk, MarkOk, AlertOk, PhaseOk, Offsets, LedgerOk, TrackedOf;
    NextIsNew(c.log, c.read, c.start, c.ledger);
  }

  /** Only a bridge that gives up loses a result, and nobody brings it back. */
  lemma CarriedStep(c: Claim, e: Event, o: int)
    requires Inv(c) && Enabled(c, e) && o in c.ledger
    ensures o in Fire(c, e).ledger
    ensures Carried(c, o) && !(e.BridgeGiveUp? && e.o == o) ==> Carried(Fire(c, e), o)
    ensures !Carried(c, o) ==> !Carried(Fire(c, e), o)
  {
    hide Inv, Carried, Fire, Enabled;
    if e == TakeCompletion {
      CompletionCarries(c, o);
    } else if e == TakeDlqResult {
      DlqResultCarries(c, o);
    } else if e == Receive {
      ReceiveCarries(c, o);
    } else {
      BridgeCarries(c, e, o);
    }
    EntriesStay(c, e, o);
  }

  lemma EntriesStay(c: Claim, e: Event, o: int)
    requires Inv(c) && Enabled(c, e) && o in c.ledger
    ensures o in Fire(c, e).ledger
  {
    hide LedgerOk, EntryOk, BridgeOk, DlqOk, MarkOk, AlertOk, PhaseOk, Fire;
    FireLedger(c, e);
  }

  lemma DoneStays(c: Claim, e: Event, o: int)
    requires Enabled(c, e) && o in c.done
    ensures o in Fire(c, e).done
  {
    hide LoopHead, OnCompletion, OnDlqResult;
    TakenFields(c);
    HeadOnlyPhase(c.(closed := true));
    HeadOnlyPhase(c.(phase := Flushing));
    if c.compCh != [] {
      HeadOnlyPhase(OnCompletion(c));
    }
    if c.dlqCh != [] {
      HeadOnlyPhase(OnDlqResult(c));
    }
  }

  lemma {:induction false} AnsweredRun(c: Claim, later: seq<Event>, o: int)
    requires Inv(c) && Carried(c, o) && o in c.done
    ensures Carried(Exec(c, later), o)
    decreases |later|
  {
    hide Inv, Carried, Fire;
    if later != [] {
      if Enabled(c, later[0]) {
        CarriedNames(c, o);
        CarriedStep(c, later[0], o);
        DoneStays(c, later[0], o);
        FireKeeps(c, later[0]);
      }
      AnsweredRun(Apply(c, later[0]), later[1..], o);
    }
  }

  lemma CarriedNames(c: Claim, o: int)
    requires Carried(c, o)
    ensures o in c.ledger
  {
  }

  lemma {:induction false} LostRun(c: Claim, later: seq<Event>, o: int)
    requires Inv(c) && o in c.ledger && !Carried(c, o)
    ensures o in Exec(c, later).ledger && !Carried(Exec(c, later), o) && Inv(Exec(c, later))
    decreases |later|
  {
    hide Inv, Carried, Fire, Enabled;
    if later != [] {
      if Enabled(c, later[0]) {
        CarriedStep(c, later[0], o);
        FireKeeps(c, later[0]);
      }
      LostRun(Apply(c, later[0]), later[1..], o);
    }
  }

  /** A result that was there while its bridge waited is never lost, whatever is canceled later: a bridge
      gives up only on a handler that has not answered. */
  lemma {:induction false} RunAnsweredIsCarried(window: nat, hasDlq: bool, log: seq<Message>, before: seq<Event>, later: seq<Event>, o: int)
    requires window > 0 && Increasing(log)
    requires var c := Reached(window, hasDlq, log, before); Carried(c, o) && o in c.done
    ensures Carried(Exec(Reached(window, hasDlq, log, before), later), o)
  {
    ReachedInv(window, hasDlq, log, before);
    AnsweredRun(Reached(window, hasDlq, log, before), later, o);
  }

  ghost predicate AllCarried(c: Claim) {
    forall o :: o in c.ledger ==> Carried(c, o)
  }

  /** A step of flush, or of what feeds it, other than its timeout and a bridge that gives up. */
  ghost predicate Drains(c: Claim, e: Event) {
    Enabled(c, e) && !e.FlushTimeout? && !e.BridgeGiveUp? && !e.EnterFlush? && !e.Cancel? && !e.Receive? && !e.ReceiveNil?
  }

  lemma UnsettledDrains(c: Claim, o: nat)
    requires Inv(c) && c.phase == Flushing && Carried(c, o) && !c.ledger[o].settled
    ensures exists e :: Drains(c, e)
  {
    hide LedgerOk, EntryOk, DlqOk, MarkOk, AlertOk, PhaseOk, TrackedOf, BridgeOk;
    if o in c.waiting {
      if o in c.done {
        assert Drains(c, BridgeTake(o));
      } else {
        assert Drains(c, HandlerDone(o, Succeeded));
      }
    } else if o in c.holding {
      RoomInChannels(c);
      WithRoomNobodyBlocks(c);
      assert Drains(c, BridgeSend(o));
    } else {
      assert c.compCh != [];
      assert Drains(c, TakeCompletion);
    }
  }

  lemma PendingDrains(c: Claim, o: nat)
    requires Inv(c) && c.phase == Flushing && o in c.ledger && c.ledger[o].dlqPending
    ensures exists e :: Drains(c, e)
  {
    hide LedgerOk, EntryOk, BridgeOk, MarkOk, AlertOk, PhaseOk, TrackedOf;
    if o in c.dlqRunning {
      RoomInChannels(c);
      WithRoomNobodyBlocks(c);
      assert Drains(c, DlqFinish(o, false));
    } else {
      assert c.dlqCh != [];
      assert Drains(c, TakeDlqResult);
    }
  }

  lemma SomethingDrains(c: Claim)
    requires Inv(c) && c.phase == Flushing && AllCarried(c)
    ensures exists e :: Drains(c, e)
  {
    var o := UnresolvedOne(c);
    LedgerNames(c);
    if c.ledger[o].settled {
      PendingDrains(c, c.ledger[o].msg.offset);
    } else {
      UnsettledDrains(c, c.ledger[o].msg.offset);
    }
  }

  lemma UnresolvedOne(c: Claim) returns (o: int)
    requires Inv(c) && c.phase == Flushing
    ensures o in c.ledger && c.ledger[o].Unresolved()
  {
    hide LedgerOk, EntryOk, BridgeOk, DlqOk, MarkOk, AlertOk;
    o :| o in UnresolvedOffsets(c);
  }

  lemma DrainKeepsAll(c: Claim, e: Event)
    requires Inv(c) && AllCarried(c) && Drains(c, e)
    ensures AllCarried(Fire(c, e))
  {
    hide Inv, Carried, Fire, Enabled;
    forall o | o in Fire(c, e).ledger ensures Carried(Fire(c, e), o) {
      SameEntries(c, e);
      CarriedStep(c, e, o);
    }
  }

  lemma SameEntries(c: Claim, e: Event)
    requires Inv(c) && Enabled(c, e) && !e.Receive?
    ensures Fire(c, e).ledger.Keys == c.ledger.Keys
  {
    hide LedgerOk, EntryOk, BridgeOk, DlqOk, MarkOk, AlertOk, PhaseOk, Fire, Settled, Resolve;
    FireLedger(c, e);
    if e == TakeCompletion {
      HeadCompletion(c);
      SameKeys(c.ledger, c.compCh[0].offset, Settled(c.phase, c.ledger[c.compCh[0].offset], c.compCh[0]));
    } else if e == TakeDlqResult {
      HeadDlqResult(c);
      SameKeys(c.ledger, c.dlqCh[0].offset, Resolve(c.ledger[c.dlqCh[0].offset], c.dlqCh[0]));
    }
  }

  lemma SameKeys(ledger: Ledger, o: int, e: Entry)
    requires o in ledger
    ensures ledger[o := e].Keys == ledger.Keys
  {
  }

  lemma DrainingPhase(c: Claim, e: Event)
    requires c.phase == Flushing && Drains(c, e)
    ensures Fire(c, e).phase == Flushing || Fire(c, e).phase == Returned
  {
    hide OnCompletion, OnDlqResult, UnresolvedOffsets, Tracked;
    match e
    case TakeCompletion => TakenFields(c);
    case TakeDlqResult => TakenFields(c);
    case _ =>
  }

  lemma {:induction false} FlushCanFinish(c: Claim) returns (later: seq<Event>)
    requires Inv(c) && (c.phase == Flushing || c.phase == Returned) && AllCarried(c)
    ensures FlushTimeout !in later && Exec(c, later).phase == Returned
    decreases if Measure(c) >= 0 then Measure(c) else 0
  {
    hide Inv, AllCarried, Measure, Fire, Enabled;
    if c.phase == Returned {
      later := [];
    } else {
      SomethingDrains(c);
      var e :| Drains(c, e);
      FireKeeps(c, e);
      FireLowers(c, e);
      MeasureIsNat(Fire(c, e));
      DrainKeepsAll(c, e);
      DrainingPhase(c, e);
      var rest := FlushCanFinish(Fire(c, e));
      later := [e] + rest;
      assert later[1..] == rest;
    }
  }

  ghost predicate CanFinish(c: Claim) {
    exists later :: FlushTimeout !in later && Exec(c, later).phase == Returned
  }

  /** A claim in flush can end without the timeout if and only if no bridge has given up on an entry that is
      still unsettled. */
  lemma {:induction false} RunFlushCanFinishIff(window: nat, hasDlq: bool, log: seq<Message>, before: seq<Event>)
    requires window > 0 && Increasing(log) && Reached(window, hasDlq, log, before).phase == Flushing
    ensures var c := Reached(window, hasDlq, log, before); CanFinish(c) <==> AllCarried(c)
  {
    hide Inv, Carried;
    var c := Reached(window, hasDlq, log, before);
    ReachedInv(window, hasDlq, log, before);
    if AllCarried(c) {
      var later := FlushCanFinish(c);
    } else {
      var o :| o in c.ledger && !Carried(c, o);
      forall later | FlushTimeout !in later ensures Exec(c, later).phase != Returned {
        LostStaysUnresolved(c, later, o);
      }
    }
  }

  lemma {:induction false} LostStaysUnresolved(c: Claim, later: seq<Event>, o: int)
    requires Inv(c) && c.phase == Flushing && o in c.ledger && !Carried(c, o) && FlushTimeout !in later
    ensures Exec(c, later).phase != Returned
  {
    hide Inv;
    hide Carried, UnresolvedOffsets;
    RunDrains(c, later);
    LostRun(c, later, o);
    LostIsUnsettled(Exec(c, later), o);
    UnsettledIsUnresolved(Exec(c, later), o);
  }

  lemma LostIsUnsettled(c: Claim, o: int)
    requires o in c.ledger && !Carried(c, o)
    ensures !c.ledger[o].settled
  {
  }

  lemma UnsettledIsUnresolved(c: Claim, o: int)
    requires Inv(c) && o in c.ledger && !c.ledger[o].settled
    ensures o in UnresolvedOffsets(c)
  {
    hide EntryOk, BridgeOk, CarriedOk, DlqOk, MarkOk, DeterminedOk, AlertOk, PhaseOk;
    NotReadyIsTracked(c.ledger, c.start, o);
  }

  /** The loop takes the next message exactly while it runs, the channel is open and the window has room,
      canceled or not; and a bridge gives up exactly when the session is canceled and its handler has not
      answered. */
  lemma {:induction false} RunTakesAndGivesUpIff(window: nat, hasDlq: bool, log: seq<Message>, before: seq<Event>, o: nat)
    requires window > 0 && Increasing(log)
    ensures var c := Reached(window, hasDlq, log, before);
            && (Exec(c, [Receive]).read == c.read + 1 <==>
                  c.phase == Running && !c.closed && |Tracked(c)| < window && c.read < |log|)
            && (o in c.waiting && o !in Exec(c, [BridgeGiveUp(o)]).waiting <==> o in c.waiting && c.canceled && o !in c.done)
  {
    hide Inv, Apply, Tracked;
    var c := Reached(window, hasDlq, log, before);
    ReachedInv(window, hasDlq, log, before);
    assert [Receive][1..] == [] && [BridgeGiveUp(o)][1..] == [];
    assert Exec(c, [Receive]) == Apply(c, Receive) && Exec(c, [BridgeGiveUp(o)]) == Apply(c, BridgeGiveUp(o));
    TakesIff(c);
    GivesUpIff(c, o);
  }

  lemma TakesIff(c: Claim)
    ensures Apply(c, Receive).read == c.read + 1 <==> c.phase == Running && !c.closed && |Tracked(c)| < c.window && c.read < |c.log|
  {
    hide Tracked;
  }

  lemma GivesUpIff(c: Claim, o: nat)
    ensures o in c.waiting && o !in Apply(c, BridgeGiveUp(o)).waiting <==> o in c.waiting && c.canceled && o !in c.done
  {
  }

  /** A canceled claim can always end: it may enter flush, and flush may time out. */
  lemma {:induction false} CanceledCanReturn(window: nat, hasDlq: bool, log: seq<Message>, before: seq<Event>)
    requires Reached(window, hasDlq, log, before).canceled
    ensures Exec(Reached(window, hasDlq, log, before), [EnterFlush, FlushTimeout]).phase == Returned
  {
    var c := Reached(window, hasDlq, log, before);
    assert [EnterFlush, FlushTimeout][1..] == [FlushTimeout] && [FlushTimeout][1..] == [];
    var c1 := Apply(c, EnterFlush);
    assert Exec(c, [EnterFlush, FlushTimeout]) == Exec(c1, [FlushTimeout]);
    assert Exec(c1, [FlushTimeout]) == Exec(Apply(c1, FlushTimeout), []);
  }
}

/** The pipeline in the code's own form: the event loop owns an `inflight` map that it prunes and a
    frontier that it advances in place. Ghost fields remember what was pruned, and every method is
    proved to take the model's step. */
module PartitionPipeline {
  import opened Wrappers
  import opened PipelineModel
  import opened PipelineInvariants

  predicate OfTheLoop(e: Event) {
    e.Receive? || e.ReceiveNil? || e.TakeCompletion? || e.TakeDlqResult? || e.EnterFlush? || e.FlushTimeout?
  }

  /** The part of the ledger at and above the frontier. */
  ghost function Tracking(ledger: Ledger, frontier: int): Ledger {
    map o | o in Above(ledger, frontier) :: ledger[o]
  }

  /** A completion of an entry that is no longer tracked changes nothing. */
  lemma UntrackedCompletion(c: Claim)
    requires c.compCh != [] && c.compCh[0].offset !in Tracked(c)
    ensures OnCompletion(c) == c.(compCh := c.compCh[1..])
  {
  }

  /** In the event loop a completion settles its entry and maybe starts a DLQ send. */
  ghost function AfterSettling(c: Claim, x: Completion): Claim
    requires x.offset in c.ledger
  {
    PipelineModel.Commit(c.(dlqRunning := if StartsSend(c.ledger[x.offset], x) then c.dlqRunning + {x.offset} else c.dlqRunning),
                         c.ledger[x.offset := SettleRunning(c.ledger[x.offset], x)])
  }

  predicate StartsSend(e: Entry, x: Completion) {
    !x.canceled && Decide(e, x.outcome) == CommitEnvelopeFail
  }

  lemma TrackedCompletion(c: Claim)
    requires c.compCh != [] && c.compCh[0].offset in Tracked(c) && c.phase == Running
    ensures OnCompletion(c) == AfterSettling(c.(compCh := c.compCh[1..]), c.compCh[0])
  {
  }

  class Pipeline {
    const window: nat
    const hasDlq: bool

    // owned by the event loop
    var inflight: map<int, Entry>
    var frontier: int
    var closed: bool
    var phase: Phase
    // seen through the session: the message channel, the marks, the alerts, the cancellation
    var messages: seq<Message>
    var marks: seq<int>
    var alerts: seq<int>
    var canceled: bool
    // the handlers at work, the Done channels, the bridges, the DLQ senders and the two bounded channels
    var running: set<int>
    var done: map<int, Outcome>
    var waiting: set<int>
    var holding: map<int, Completion>
    var compCh: seq<Completion>
    var dlqRunning: set<int>
    var dlqDoneCh: seq<DlqResult>

    // history
    ghost const log: seq<Message>
    ghost var read: nat
    ghost var start: int
    ghost var ledger: Ledger
    ghost var dlqDone: map<int, bool>

    ghost function Model(): Claim
      reads this
    {
      Claim(window, hasDlq, log, read, start, closed, canceled,
            phase, ledger, marks, alerts, done, waiting, holding, compCh, dlqRunning, dlqDoneCh, dlqDone)
    }

    /** The pruned map and the stored frontier are what the model recomputes from the ledger. */
    ghost predicate Mirrored()
      reads this
    {
      frontier == FrontierOf(ledger, start) && inflight == Tracking(ledger, frontier)
    }

    ghost predicate Linked()
      reads this
    {
      && read <= |log| && messages == log[read..]
      && Mirrored()
      && (start < 0 ==> ledger == map[])
      && (forall o :: o in ledger ==> ledger[o].msg.offset == o)
      && running == ledger.Keys - done.Keys
    }

    ghost predicate Valid()
      reads this
    {
      Linked() && Inv(Model())
    }

    constructor (window: nat, hasDlq: bool, log: seq<Message>)
      requires window > 0 && Increasing(log)
      ensures Valid() && Model() == Init(window, hasDlq, log)
    {
      this.window, this.hasDlq, this.log, messages := window, hasDlq, log, log;
      inflight, frontier, closed, phase := map[], -1, false, Running;
      marks, alerts, canceled := [], [], false;
      running, done, waiting, holding, compCh, dlqRunning, dlqDoneCh := {}, map[], {}, map[], [], {}, [];
      read, start, ledger, dlqDone := 0, -1, map[], map[];
      new;
      InitInv(window, hasDlq, log);
    }

    /** Advance over the ready prefix, pruning it, and return its last message. */
    method AdvanceFrontier() returns (last: Option<Message>)
      requires inflight == Tracking(ledger, frontier)
      modifies this`inflight, this`frontier
      ensures frontier == Reach(ledger, old(frontier))
      ensures inflight == Tracking(ledger, frontier)
      ensures last == if old(frontier) < frontier then Some(ledger[frontier - 1].msg) else None
    {
      last := None;
      while frontier in inflight && inflight[frontier].Ready()
        invariant old(frontier) <= frontier
        invariant inflight == Tracking(ledger, frontier)
        invariant Reach(ledger, frontier) == Reach(ledger, old(frontier))
        invariant last == if old(frontier) < frontier then Some(ledger[frontier - 1].msg) else None
        decreases inflight.Keys
      {
        last := Some(inflight[frontier].msg);
        inflight := inflight - {frontier};
        frontier := frontier + 1;
      }
      assert frontier in ledger ==> frontier in inflight;
    }

    /** Advance, then mark the highest message the frontier passed, if any. */
    method Commit()
      requires start >= 0 && inflight == Tracking(ledger, frontier)
      requires start <= frontier && forall k :: start <= k < frontier ==> k in ledger && ledger[k].Ready()
      requires forall o :: o in ledger ==> ledger[o].msg.offset == o
      modifies this`inflight, this`frontier, this`marks
      ensures Mirrored()
      ensures marks == MarkOnce(old(marks), old(frontier), frontier)
    {
      var last := AdvanceFrontier();
      ReachSkip(ledger, start, old(frontier));
      if last.Some? {
        marks := marks + [last.value.offset];
      }
    }

    /** How many tracked entries are unsettled or wait for a DLQ send. */
    method Unresolved() returns (n: nat)
      requires Mirrored()
      ensures n == |UnresolvedOffsets(Model())|
    {
      n := 0;
      var rest := inflight.Keys;
      ghost var seen: set<int> := {};
      while rest != {}
        invariant rest + seen == inflight.Keys && rest !! seen
        invariant n == |set o | o in seen && inflight[o].Unresolved()|
        decreases rest
      {
        var o :| o in rest;
        ghost var before := set k | k in seen && inflight[k].Unresolved();
        rest, seen := rest - {o}, seen + {o};
        if inflight[o].Unresolved() {
          n := n + 1;
          assert (set k | k in seen && inflight[k].Unresolved()) == before + {o};
        } else {
          assert (set k | k in seen && inflight[k].Unresolved()) == before;
        }
      }
      assert seen == Tracked(Model());
      assert (set o | o in seen && inflight[o].Unresolved()) == UnresolvedOffsets(Model());
    }

    /** The tests at the head of the event loop and of flush. */
    method LoopHead()
      requires Mirrored()
      modifies this`phase
      ensures Model() == PipelineModel.LoopHead(old(Model()))
    {
      assert inflight.Keys == Tracked(Model());
      if phase == Running && closed && |inflight| == 0 {
        phase := Returned;
      } else if phase == Flushing {
        var n := Unresolved();
        if n == 0 {
          phase := Returned;
        }
      }
    }

    // ---------------------------------------------------------------- the arms of the select

    /** Take the next message off the channel, submit it and start its bridge. */
    method Pull() returns (msg: Message)
      requires read < |log| && messages == log[read..]
      modifies this`messages, this`running, this`waiting, this`read, this`start, this`ledger
      ensures running == old(running) + {msg.offset}
      ensures read <= |log| && messages == log[read..] && msg == log[old(read)]
      ensures Model() == OnReceive(old(Model()))
    {
      msg := messages[0];
      messages := messages[1..];
      running := running + {msg.offset};
      Register(msg);
    }

    /** Start the bridge, and note the message in the history. */
    method Register(msg: Message)
      requires read < |log| && msg == log[read]
      modifies this`waiting, this`read, this`start, this`ledger
      ensures Model() == OnReceive(old(Model()))
    {
      waiting := waiting + {msg.offset};
      start := if start < 0 then msg.offset else start;
      ledger := ledger[msg.offset := Entry(msg, false, false, false)];
      read := read + 1;
    }

    method TakeMessage()
      requires Linked() && read < |log| && ReceiveLinks(Model()) && log[read].offset !in done
      modifies this`messages, this`running, this`read, this`frontier, this`inflight, this`waiting, this`start, this`ledger
      ensures Linked() && Model() == OnReceive(old(Model()))
    {
      var msg := Pull();
      if frontier < 0 {
        frontier := msg.offset;
      }
      inflight := inflight[msg.offset := Entry(msg, false, false, false)];
    }

    method FindMessagesClosed()
      requires Linked()
      modifies this`closed
      ensures Linked() && Model() == old(Model()).(closed := true)
    {
      closed := true;
    }

    /** Write a changed entry back to inflight and commit what became ready. */
    method Store(o: int, e: Entry)
      requires Linked() && o in inflight && e.msg == inflight[o].msg
      modifies this`inflight, this`ledger, this`frontier, this`marks
      ensures Linked() && Model() == PipelineModel.Commit(old(Model()), old(ledger)[o := e])
    {
      hide Reach, Tracking, FrontierOf;
      Write(o, e);
      Commit();
    }

    method Write(o: int, e: Entry)
      requires Linked() && o in inflight && e.msg == inflight[o].msg
      modifies this`inflight, this`ledger
      ensures ledger == old(ledger)[o := e] && inflight == Tracking(ledger, frontier)
      ensures 0 <= start <= frontier && frontier == FrontierOf(old(ledger), start) && ledger.Keys == old(ledger).Keys
      ensures forall k :: start <= k < frontier ==> k in ledger && ledger[k].Ready()
      ensures forall k :: k in ledger ==> ledger[k].msg.offset == k
    {
      inflight := inflight[o := e];
      StoredTracking(ledger, frontier, o, e);
      ledger := ledger[o := e];
    }

    /** The code's look-up in `inflight` is the model's look-up among the tracked offsets. */
    lemma LookUp(o: int)
      requires Mirrored()
      ensures o in inflight <==> o in Tracked(Model())
      ensures o in inflight ==> o in ledger && inflight[o] == ledger[o]
    {
    }

    /** The new flags of a completed entry; a failed envelope starts its DLQ send. */
    method Flag(c: Completion) returns (e: Entry)
      requires c.offset in inflight
      modifies this`dlqRunning
      ensures e == SettleRunning(inflight[c.offset], c) && e.msg == inflight[c.offset].msg
      ensures dlqRunning == if StartsSend(inflight[c.offset], c) then old(dlqRunning) + {c.offset} else old(dlqRunning)
    {
      e := inflight[c.offset].(settled := true);
      if c.canceled {
        e := e.(commitable := false);
      } else {
        match Decide(e, c.outcome)
        case CommitSuccess => e := e.(commitable := true);
        case CommitRegularFail => e := e.(commitable := true);
        case CommitEnvelopeFail =>
          e := e.(dlqPending := true);
          dlqRunning := dlqRunning + {c.offset};
      }
    }

    method Settle(c: Completion)
      requires Linked() && c.offset in inflight
      modifies this`dlqRunning, this`inflight, this`ledger, this`frontier, this`marks
      ensures Linked() && c.offset in old(ledger) && Model() == AfterSettling(old(Model()), c)
    {
      hide Reach, PipelineModel.Commit, SettleRunning, StartsSend, Tracking, FrontierOf;
      LookUp(c.offset);
      var e := Flag(c);
      Store(c.offset, e);
    }

    /** The completion arm of the event loop. */
    method TakeCompletionInRun()
      requires Linked() && phase == Running && compCh != []
      modifies this`compCh, this`dlqRunning, this`inflight, this`ledger, this`frontier, this`marks
      ensures Linked() && Model() == OnCompletion(old(Model()))
    {
      hide Reach, OnCompletion, AfterSettling, Tracking, Tracked, FrontierOf;
      ghost var before := Model();
      var c := compCh[0];
      LookUp(c.offset);
      compCh := compCh[1..];
      if c.offset in inflight {
        TrackedCompletion(before);
        Settle(c);
      } else {
        UntrackedCompletion(before);
      }
    }

    /** The completion arm of flush. */
    method TakeCompletionInFlush()
      requires Linked() && phase == Flushing && compCh != []
      modifies this`compCh, this`inflight, this`ledger, this`frontier, this`marks
      ensures Linked() && Model() == OnCompletion(old(Model()))
    {
      var c := compCh[0];
      compCh := compCh[1..];
      if c.offset in inflight && !inflight[c.offset].settled {
        var e := inflight[c.offset].(settled := true);
        if c.canceled {
          e := e.(commitable := false);
        } else {
          match Decide(e, c.outcome)
          case CommitSuccess => e := e.(commitable := true);
          case CommitRegularFail => e := e.(commitable := true);
          case CommitEnvelopeFail => e := e.(commitable := false);
        }
        Store(c.offset, e);
      }
    }

    /** The DLQ arm, the same in the event loop and in flush. */
    method TakeDlqResult()
      requires Linked() && dlqDoneCh != []
      modifies this`dlqDoneCh, this`alerts, this`inflight, this`ledger, this`frontier, this`marks
      ensures Linked() && Model() == OnDlqResult(old(Model()))
    {
      var r := dlqDoneCh[0];
      dlqDoneCh := dlqDoneCh[1..];
      if r.offset in inflight {
        if !r.ok {
          alerts := alerts + [r.offset];
        }
        Store(r.offset, inflight[r.offset].(dlqPending := false, commitable := r.ok));
      }
    }

    // ---------------------------------------------------------------- the goroutines beside the loop

    /** A bridge finds its Done channel filled and takes the result, noting whether the session is
        canceled by then. */
    method BridgeTake(o: nat)
      requires o in waiting && o in done
      modifies this`waiting, this`holding
      ensures Model() == Fire(old(Model()), Event.BridgeTake(o))
    {
      var wasCanceled := false;
      if canceled {
        wasCanceled := true;
      }
      waiting := waiting - {o};
      holding := holding[o := Completion(o, done[o], wasCanceled)];
    }

    method BridgeSend(o: nat)
      requires o in holding && |compCh| < window
      modifies this`holding, this`compCh
      ensures Model() == Fire(old(Model()), Event.BridgeSend(o))
    {
      var c := holding[o];
      holding := holding - {o};
      compCh := compCh + [c];
    }

    method DlqFinish(o: nat, ok: bool)
      requires o in dlqRunning && |dlqDoneCh| < window && (ok ==> hasDlq)
      modifies this`dlqRunning, this`dlqDoneCh, this`dlqDone
      ensures Model() == Fire(old(Model()), Event.DlqFinish(o, ok))
    {
      dlqRunning := dlqRunning - {o};
      dlqDoneCh := dlqDoneCh + [DlqResult(o, ok)];
      dlqDone := dlqDone[o := ok];
    }

    /** One step of a handler, a bridge, a DLQ sender or the session, if it can be taken. */
    method Beside(e: Event)
      requires Linked() && !OfTheLoop(e)
      modifies this`running, this`done, this`waiting, this`holding, this`compCh, this`dlqRunning, this`dlqDoneCh, this`dlqDone, this`canceled
      ensures Linked() && Model() == Apply(old(Model()), e)
    {
      hide Reach, Tracking, FrontierOf, PipelineModel.LoopHead, OnReceive, OnCompletion, OnDlqResult;
      match e
      case HandlerDone(o, outcome) => HandlerReturns(o, outcome);
      case BridgeTake(o) =>
        if o in waiting && o in done {
          BridgeTake(o);
        }
      case BridgeSend(o) =>
        if o in holding && |compCh| < window {
          BridgeSend(o);
        }
      case BridgeGiveUp(o) =>
        if o in waiting && canceled && o !in done {
          waiting := waiting - {o};
        }
      case DlqFinish(o, ok) =>
        if o in dlqRunning && |dlqDoneCh| < window && (ok ==> hasDlq) {
          DlqFinish(o, ok);
        }
      case Cancel =>
        canceled := true;
    }

    /** A handler call answers on the Done channel of its message, once. */
    method HandlerReturns(o: nat, outcome: Outcome)
      requires Linked()
      modifies this`running, this`done
      ensures Linked() && Model() == Apply(old(Model()), HandlerDone(o, outcome))
    {
      if o in running {
        running := running - {o};
        done := done[o := outcome];
      }
    }

    // ---------------------------------------------------------------- the event loop

    method MessageArm()
      requires Valid()
      modifies this`messages, this`running, this`read, this`frontier, this`inflight, this`waiting, this`start, this`ledger
      ensures Linked() && Model() == Apply(old(Model()), Receive)
    {
      assert inflight.Keys == Tracked(Model());
      if phase == Running && !closed && |inflight| < window && messages != [] {
        ReceiveLinksHold(Model());
        NextIsNew(log, read, start, ledger);
        TakeMessage();
      }
    }

    method ClosedArm()
      requires Linked()
      modifies this`closed, this`phase
      ensures Linked() && Model() == Apply(old(Model()), ReceiveNil)
    {
      assert inflight.Keys == Tracked(Model());
      if phase == Running && !closed && |inflight| < window {
        FindMessagesClosed();
        LoopHead();
      }
    }

    method CompletionArm()
      requires Linked()
      modifies this`compCh, this`dlqRunning, this`inflight, this`ledger, this`frontier, this`marks, this`phase
      ensures Linked() && Model() == Apply(old(Model()), Event.TakeCompletion)
    {
      if phase != Returned && compCh != [] {
        if phase == Running {
          TakeCompletionInRun();
        } else {
          TakeCompletionInFlush();
        }
        LoopHead();
      }
    }

    method DlqArm()
      requires Linked()
      modifies this`dlqDoneCh, this`alerts, this`inflight, this`ledger, this`frontier, this`marks, this`phase
      ensures Linked() && Model() == Apply(old(Model()), Event.TakeDlqResult)
    {
      if phase != Returned && dlqDoneCh != [] {
        TakeDlqResult();
        LoopHead();
      }
    }

    method DoneArm()
      requires Linked()
      modifies this`phase
      ensures Linked() && Model() == Apply(old(Model()), EnterFlush)
    {
      if phase == Running && canceled {
        phase := Flushing;
        LoopHead();
      }
    }

    method TimerArm()
      requires Linked()
      modifies this`phase
      ensures Linked() && Model() == Apply(old(Model()), FlushTimeout)
    {
      if phase == Flushing {
        phase := Returned;
      }
    }

    /** One step of the claim, if it can be taken. */
    method Step(e: Event)
      requires Valid()
      modifies this
      ensures Valid() && Model() == Apply(old(Model()), e)
    {
      ApplyKeeps(Model(), e);
      if e.Receive? {
        MessageArm();
      } else if e.ReceiveNil? {
        ClosedArm();
      } else if e.TakeCompletion? {
        CompletionArm();
      } else if e.TakeDlqResult? {
        DlqArm();
      } else if e.EnterFlush? {
        DoneArm();
      } else if e.FlushTimeout? {
        TimerArm();
      } else {
        Beside(e);
      }
    }

    /** The whole claim under a schedule: the loop and the goroutines beside it take their steps in
        the given order. It computes exactly the run of the model. */
    method Run(schedule: seq<Event>)
      requires Valid()
      modifies this
      ensures Valid() && Model() == Exec(old(Model()), schedule)
    {
      var i := 0;
      assert schedule[0..] == schedule;
      while i < |schedule|
        invariant 0 <= i <= |schedule|
        invariant Valid()
        invariant Exec(Model(), schedule[i..]) == Exec(old(Model()), schedule)
      {
        Step(schedule[i]);
        assert schedule[i..][1..] == schedule[i + 1..];
        i := i + 1;
      }
    }
  }

  lemma ApplyKeeps(c: Claim, e: Event)
    requires Inv(c)
    ensures Inv(Apply(c, e))
  {
    if Enabled(c, e) {
      FireKeeps(c, e);
    }
  }

  lemma StoredTracking(ledger: Ledger, frontier: int, o: int, e: Entry)
    requires o in ledger && frontier <= o
    ensures Tracking(ledger[o := e], frontier) == Tracking(ledger, frontier)[o := e]
  {
  }

  /** Receiving adds the new entry to what is tracked; only the first message moves the frontier. */
  ghost predicate ReceiveLinks(c: Claim)
    requires c.read < |c.log|
  {
    var m := c.log[c.read];
    var c' := OnReceive(c);
    && (c.start < 0 ==> c.ledger == map[])
    && Frontier(c') == (if c.start < 0 then m.offset else Frontier(c))
    && (c.start >= 0 ==> Frontier(c) >= 0)
    && Tracking(c'.ledger, Frontier(c')) == Tracking(c.ledger, Frontier(c))[m.offset := Entry(m, false, false, false)]
  }

  lemma ReceiveLinksHold(c: Claim)
    requires LedgerOk(c.log, c.read, c.start, c.ledger) && c.read < |c.log|
    ensures ReceiveLinks(c)
  {
    ReceiveFrontier(c);
    NextIsNew(c.log, c.read, c.start, c.ledger);
    if c.read > 0 {
      FrontierBelow(c.ledger, c.start, c.log[c.read].offset);
    }
  }

  /** Starting to count further up, over ready entries, reaches the same offset. */
  lemma ReachSkip(ledger: Ledger, o: int, o': int)
    requires o <= o' && forall k :: o <= k < o' ==> k in ledger && ledger[k].Ready()
    ensures Reach(ledger, o) == Reach(ledger, o')
  {
    ReachIs(ledger, o, Reach(ledger, o'));
  }
}

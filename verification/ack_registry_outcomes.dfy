/** Why a call of the registry ended the way it did. */
module AckRegistryOutcomes {
  import opened Wrappers
  import opened AckRegistryModel
  import opened AckRegistryInvariants
  import opened AckRegistryTheorems
  import opened AckRegistryHealthLoop

  /** The channel this tenant's results go to has no room left. */
  ghost predicate Full(s: Sys, tenant: int, ch: nat) {
    ch < |s.heap| && s.heap[ch].tenant == tenant && |s.heap[ch].accepted| - s.heap[ch].taken >= s.heap[ch].capacity
  }

  /** What must be the case when a result of this tenant is rejected; an accepted one is at the end of the
      tenant's channel, and every other channel is as it was. */
  ghost predicate SendReason(s: Sys, heap': Heap, t: nat, tenant: int, outcome: Outcome) {
    match outcome
    case RejectedFrozen => s.closed && heap' == s.heap
    case RejectedUnregistered =>
      && heap' == s.heap
      && if tenant == 0 then s.backend.Memory? && !s.hasGlobal else tenant !in s.table
    case RejectedFull =>
      && heap' == s.heap
      && if tenant == 0 then if s.hasGlobal then Full(s, 0, 0) else !s.backend.Memory?
         else tenant in s.table && Full(s, tenant, s.table[tenant])
    case Accepted(ch, pos) =>
      && (if tenant == 0 then s.hasGlobal && ch == 0 else tenant in s.table && ch == s.table[tenant])
      && ch < |s.heap| && !Full(s, tenant, ch)
      && heap' == s.heap[ch := s.heap[ch].(accepted := s.heap[ch].accepted + [t])]
  }

  predicate Refusable(b: Backend, closed: bool, table: Table, tenant: int) {
    closed || tenant == 0 || (tenant < 0 && b != Nats) || tenant in table
  }

  ghost predicate RegisterReason(s: Sys, table': Table, heap': Heap, tenant: int, size: int, ok: bool) {
    if ok then
      && !Refusable(s.backend, s.closed, s.table, tenant)
      && table' == s.table[tenant := |s.heap|]
      && var capacity := if size > 0 then size else if s.backend.Memory? then 10000 else 100000;
         heap' == s.heap + [Chan(tenant, capacity, [], 0, 0)]
    else
      table' == s.table && heap' == s.heap && Refusable(s.backend, s.closed, s.table, tenant)
  }

  /** The tenant is known until its channel is detached; after that the channel is. */
  ghost predicate UnregisterReason(s: Sys, table': Table, heap': Heap, pc: Pc, ok: bool)
    requires OfUnregister(pc) && !pc.UDone?
  {
    && table' == s.table
    && if ok then
         pc.UClose? && pc.ch < |s.heap| && s.heap[pc.ch].closes == 0 && heap' == s.heap[pc.ch := s.heap[pc.ch].(closes := 1)]
       else
         !pc.UClose? && heap' == s.heap && (Refusable(s.backend, s.closed, map[], pc.tenant) || pc.tenant !in s.table)
  }

  /** A background loop that ends was told to stop, or is a Kafka ACK sender whose result was rejected as
      frozen; and such a sender does end. Only the memory bus has a health check that takes `mu`. */
  ghost predicate LoopReason(s: Sys, pc: Pc, pc': Pc) {
    && (pc'.HDone? ==> s.stop || FrozenSend(s, pc))
    && (FrozenSend(s, pc) ==> pc'.HDone?)
    && (pc.HIdle? && pc'.HWant? ==> s.backend.Memory?)
  }

  ghost predicate FrozenSend(s: Sys, pc: Pc) {
    s.backend.Kafka? && pc.HCall? && pc.call in s.threads && s.threads[pc.call].SDone?
    && s.threads[pc.call].outcome == RejectedFrozen
  }

  predicate Unfinished(s: Sys, t: nat) {
    t in s.threads && !Finished(s.threads[t])
  }

  /** What the step with which a call ends has to do with its outcome. */
  ghost predicate EndsRightly(s: Sys, s': Sys, t: nat)
    requires Unfinished(s, t)
  {
    var pc := s.threads[t];
    && t in s'.threads
    && (OfSend(pc) && s'.threads[t].SDone? ==>
          s'.threads[t].tenant == pc.tenant && SendReason(s, s'.heap, t, pc.tenant, s'.threads[t].outcome))
    && (OfRegister(pc) && s'.threads[t].RDone? ==>
          RegisterReason(s, s'.table, s'.heap, pc.tenant, pc.size, s'.threads[t].ok))
    && (OfUnregister(pc) && s'.threads[t].UDone? ==> UnregisterReason(s, s'.table, s'.heap, pc, s'.threads[t].ok))
    && (OfHealth(pc) ==> LoopReason(s, pc, s'.threads[t]))
  }

  lemma AtEnds(s: Sys, s1: Sys, t: nat, pc: Pc)
    requires Unfinished(s, t)
    requires OfSend(s.threads[t]) && pc.SDone? ==>
               pc.tenant == s.threads[t].tenant && SendReason(s, s1.heap, t, pc.tenant, pc.outcome)
    requires OfRegister(s.threads[t]) && pc.RDone? ==>
               RegisterReason(s, s1.table, s1.heap, s.threads[t].tenant, s.threads[t].size, pc.ok)
    requires OfUnregister(s.threads[t]) && pc.UDone? ==> UnregisterReason(s, s1.table, s1.heap, s.threads[t], pc.ok)
    requires OfHealth(s.threads[t]) ==> LoopReason(s, s.threads[t], pc)
    ensures EndsRightly(s, At(s1, t, pc), t)
  {
    hide SendReason, RegisterReason, UnregisterReason, LoopReason;
  }

  lemma TryEnds(s: Sys, t: nat, tenant: int, ch: nat)
    requires Unfinished(s, t) && OfSend(s.threads[t]) && s.threads[t].tenant == tenant
    requires ch < |s.heap| && s.heap[ch].tenant == tenant && s.heap[ch].closes == 0
    requires if tenant == 0 then s.hasGlobal && ch == 0 else tenant in s.table && ch == s.table[tenant]
    ensures EndsRightly(s, TrySend(s, t, tenant, ch), t)
  {
    hide EndsRightly;
    var c := s.heap[ch];
    if c.HasRoom() {
      AtEnds(s, s.(heap := s.heap[ch := c.(accepted := c.accepted + [t])]), t, SDone(tenant, Accepted(ch, |c.accepted|)));
    } else {
      AtEnds(s, s, t, SDone(tenant, RejectedFull));
    }
  }

  lemma SendEnds(s: Sys, t: nat)
    requires TableOk(s.backend, s.table, s.heap) && RoutesOk(s.threads, s.table) && HeapShaped(s)
    requires Unfinished(s, t) && OfSend(s.threads[t])
    ensures EndsRightly(s, SendMove(s, t), t)
  {
    hide EndsRightly, TrySend;
    var pc := s.threads[t];
    if pc.SEnter? {
      AtEnds(s, s, t, if s.backend.Memory? then SGate(pc.tenant)
                      else if s.closed then SDone(pc.tenant, RejectedFrozen) else SRoute(pc.tenant));
    } else if pc.SGate? {
      AtEnds(s, s, t, if s.closed then SDone(pc.tenant, RejectedFrozen) else SRoute(pc.tenant));
    } else if pc.SRoute? && pc.tenant == 0 && s.hasGlobal {
      TryEnds(s, t, 0, 0);
    } else if pc.SRoute? {
      AtEnds(s, s, t, if pc.tenant != 0 then SLookup(pc.tenant)
                      else SDone(0, if s.backend.Memory? then RejectedUnregistered else RejectedFull));
    } else if pc.SLookup? {
      AtEnds(s, s, t, if pc.tenant in s.table then SSend(pc.tenant, s.table[pc.tenant])
                      else SDone(pc.tenant, RejectedUnregistered));
    } else {
      TryEnds(s, t, pc.tenant, pc.ch);
    }
  }

  lemma RegisterEnds(s: Sys, t: nat)
    requires GatesOk(s.backend, s.threads, s.closed)
    requires Unfinished(s, t) && OfRegister(s.threads[t])
    ensures EndsRightly(s, RegisterMove(s, t), t)
  {
    hide EndsRightly;
    var pc := s.threads[t];
    if pc.REnter? {
      AtEnds(s, s, t, if s.backend.Memory? then RGate(pc.tenant, pc.size)
                      else Gate(s, pc.tenant, RDone(false), RLock(pc.tenant, pc.size)));
    } else if pc.RGate? {
      AtEnds(s, s, t, Gate(s, pc.tenant, RDone(false), RLock(pc.tenant, pc.size)));
    } else if pc.RLock? {
      AtEnds(s, s, t, RInstall(pc.tenant, pc.size));
    } else if (!s.backend.Memory? && s.closed) || pc.tenant in s.table {
      AtEnds(s, s, t, RDone(false));
    } else {
      AtEnds(s, Install(s, pc.tenant, pc.size), t, RDone(true));
    }
  }

  lemma CloserOpens(s: Sys, t: nat)
    requires OwnersOk(s.threads, s.pending) && ChansOk(s.table, s.heap, s.pending) && t in s.threads && s.threads[t].UClose?
    ensures s.threads[t].ch < |s.heap| && s.heap[s.threads[t].ch].closes == 0
  {
    assert WillClose(s.threads[t], s.threads[t].ch);
    assert s.threads[t].ch in s.pending;
  }

  lemma UnregisterEnds(s: Sys, t: nat)
    requires OwnersOk(s.threads, s.pending) && ChansOk(s.table, s.heap, s.pending)
    requires Unfinished(s, t) && OfUnregister(s.threads[t])
    ensures EndsRightly(s, UnregisterMove(s, t), t)
  {
    hide OwnersOk, ChansOk, EndsRightly;
    var pc := s.threads[t];
    if pc.UEnter? {
      AtEnds(s, s, t, if s.backend.Memory? then UGate(pc.tenant) else Gate(s, pc.tenant, UDone(false), ULock(pc.tenant)));
    } else if pc.UGate? {
      AtEnds(s, s, t, Gate(s, pc.tenant, UDone(false), ULock(pc.tenant)));
    } else if pc.ULock? {
      AtEnds(s, s, t, UDetach(pc.tenant));
    } else if pc.UDetach? {
      if pc.tenant in s.table {
        AtEnds(s, Detach(s, t, pc.tenant), t, UClose(s.table[pc.tenant]));
      } else {
        AtEnds(s, s, t, UDone(false));
      }
    } else {
      CloserOpens(s, t);
      AtEnds(s, CloseChan(s, pc.ch), t, UDone(true));
    }
  }

  lemma HealthEnds(s: Sys, t: nat, k: int)
    requires Unfinished(s, t) && OfHealth(s.threads[t]) && (s.threads[t].HIdle? ==> if k == 0 then s.stop else s.backend.Memory?)
    requires s.threads[t].HCall? ==> s.threads[t].call in s.threads && s.threads[s.threads[t].call].SDone?
    ensures EndsRightly(s, HealthMove(s, t, k), t)
  {
    hide EndsRightly;
    var pc := s.threads[t];
    if pc.HIdle? {
      AtEnds(s, s, t, if k == 0 then HDone else HWant);
    } else if pc.HWant? {
      AtEnds(s, s, t, HPublish);
    } else if pc.HPublish? {
      AtEnds(s, s, t, HIdle);
    } else {
      AtEnds(s, s, t, AfterCall(s, pc.call));
    }
  }

  predicate HasReason(pc: Pc) {
    OfSend(pc) || OfRegister(pc) || OfUnregister(pc) || OfHealth(pc)
  }

  lemma CanMoveFacts(s: Sys, t: nat, k: int)
    requires CanMove(s, t, k)
    ensures Unfinished(s, t) && (s.threads[t].HIdle? ==> if k == 0 then s.stop else s.backend.Memory?)
    ensures s.threads[t].HCall? ==> s.threads[t].call in s.threads && s.threads[s.threads[t].call].SDone?
  {
    hide MuReadFree, MuWriteFree, TcReadFree, TcWriteFree, WatchCanMove, HealthJoined;
  }

  lemma InvShaped(s: Sys)
    requires Inv(s)
    ensures HeapShaped(s)
  {
    hide LocksOk, OwnersOk, ChansOk, RoutesOk, GatesOk, CloserOk, SweptOk, HealthOk, StopOk, AcceptedOk, LateOk;
  }

  lemma MoveEnds(s: Sys, t: nat, k: int)
    requires Inv(s) && CanMove(s, t, k) && HasReason(s.threads[t])
    ensures Unfinished(s, t) && EndsRightly(s, Apply(s, Move(t, k)), t)
  {
    hide CanMove, EndsRightly, SendMove, RegisterMove, UnregisterMove, HealthMove, HeapShaped,
         LocksOk, TableOk, OwnersOk, ChansOk, RoutesOk, GatesOk, CloserOk, SweptOk, HealthOk, StopOk, AcceptedOk, LateOk;
    CanMoveFacts(s, t, k);
    var pc := s.threads[t];
    InvShaped(s);
    if OfSend(pc) {
      SendEnds(s, t);
    } else if OfRegister(pc) {
      RegisterEnds(s, t);
    } else if OfUnregister(pc) {
      UnregisterEnds(s, t);
    } else {
      HealthEnds(s, t, k);
    }
  }

  /** In every run, whenever a call takes its last step, its outcome is the right one for the state it
      meets: frozen only after the freeze; unregistered only without a channel; full only when the buffer
      of its own tenant is; a registration fails only after the freeze, for a reserved number or a tenant
      that is registered, and otherwise installs an empty channel of the size asked for; an ACK sender ends
      only when it is told to, or in Kafka when its result was rejected as frozen. */
  lemma {:induction false} OutcomesHaveReasons(b: Backend, hasGlobal: bool, capacity: nat, health: set<nat>, schedule: seq<Event>,
                                               t: nat, k: int, s: Sys)
    requires s == Reached(b, hasGlobal, capacity, health, schedule) && CanMove(s, t, k) && HasReason(s.threads[t])
    ensures Unfinished(s, t) && EndsRightly(s, Apply(s, Move(t, k)), t)
  {
    hide Inv, CanMove, EndsRightly, Apply, Reached;
    ReachedInv(b, hasGlobal, capacity, health, schedule);
    MoveEnds(s, t, k);
  }

  /** The error that Close stores when its teardown is done is the one that every call of Close returns. */
  lemma {:induction false} CloseReturnsItsError(b: Backend, hasGlobal: bool, capacity: nat, health: set<nat>,
                                                before: seq<Event>, later: seq<Event>, c: nat, err: int, t: nat, s: Sys)
    requires s == Reached(b, hasGlobal, capacity, health, before) && CanMove(s, c, err) && s.threads[c].CStore?
    requires var s' := Exec(Apply(s, Move(c, err)), later); t in s'.threads && s'.threads[t].CDone?
    ensures Exec(Apply(s, Move(c, err)), later).threads[t].err == err
  {
    hide Inv, CanMove, Enabled, Fire, Reached;
    var s1 := Apply(s, Move(c, err));
    ReachedInv(b, hasGlobal, capacity, health, before);
    ErrorStored(s, c, err);
    FireKeeps(s, Move(c, err));
    ExecKeeps(s1, later);
    ReturnedError(Exec(s1, later), t);
  }

  lemma ErrorStored(s: Sys, c: nat, err: int)
    requires Inv(s) && CanMove(s, c, err) && s.threads[c].CStore?
    ensures Enabled(s, Move(c, err)) && Apply(s, Move(c, err)).terminal == Some(err)
  {
    hide LocksOk, OwnersOk, ChansOk, RoutesOk, GatesOk, CloserOk, SweptOk, HealthOk, StopOk, AcceptedOk, LateOk;
  }

  /** A listener can take a result exactly when its channel's buffer holds one, and it takes the oldest. */
  lemma {:induction false} ListenersTakeTheOldest(b: Backend, hasGlobal: bool, capacity: nat, health: set<nat>,
                                                  schedule: seq<Event>, ch: nat, s: Sys)
    requires s == Reached(b, hasGlobal, capacity, health, schedule) && ch < |s.heap|
    ensures var s' := Apply(s, Recv(ch));
            && s.heap[ch].taken <= |s.heap[ch].accepted|
            && s'.threads == s.threads && |s'.heap| == |s.heap| && s'.heap[ch].taken <= |s'.heap[ch].accepted|
            && (forall c :: 0 <= c < |s.heap| && c != ch ==> s'.heap[c] == s.heap[c])
            && (if Buffer(s.heap[ch]) == [] then s' == s
                else Buffer(s.heap[ch]) == [Buffer(s.heap[ch])[0]] + Buffer(s'.heap[ch]))
  {
    hide Reached;
    AcksAreConserved(b, hasGlobal, capacity, health, schedule);
    var s' := Apply(s, Recv(ch));
    assert Enabled(s, Recv(ch)) <==> |Buffer(s.heap[ch])| > 0;
    if Enabled(s, Recv(ch)) {
      assert s.heap[ch].accepted[s.heap[ch].taken..][1..] == s'.heap[ch].accepted[s'.heap[ch].taken..];
    }
  }

  lemma AtSubscribed(s: Sys, s1: Sys, t: nat, pc: Pc)
    requires s1.subscribed == s.subscribed
    ensures At(s1, t, pc).subscribed == s.subscribed
  {
  }

  lemma StopSubscribed(s: Sys, t: nat, step: WatchPc, k: int)
    requires step.JStart? ==> 0 <= k
    ensures StopMove(s, t, step, k).subscribed == s.subscribed
  {
    hide At;
    if step.JWant? && s.monitor.Some? {
      AtSubscribed(s, s.(canceled := s.canceled + {s.monitor.value}), t, Watch(JJoin(s.monitor.value, step.restart)));
    } else if step.JWant? || (step.JJoin? && step.restart) {
      AtSubscribed(s, s, t, Watch(if step.restart then JStart else JDone));
    } else if step.JJoin? {
      AtSubscribed(s, s.(monitor := None), t, Watch(JDone));
    } else if step.JStart? {
      AtSubscribed(s, s.(monitor := Some(k)), k, Watch(MIdle));
      AtSubscribed(s, At(s.(monitor := Some(k)), k, Watch(MIdle)), t, Watch(JDone));
    }
  }

  lemma WatchSubscribed(s: Sys, t: nat, k: int)
    requires CanMove(s, t, k) && s.threads[t].Watch?
    ensures WatchMove(s, t, k).subscribed == s.subscribed
  {
    hide MuReadFree, MuWriteFree, TcReadFree, TcWriteFree, HealthJoined, At, StopMove;
    var step := s.threads[t].step;
    if OfLoop(step) {
      AtSubscribed(s, s, t, Watch(AfterLoop(s.backend, s.closed, s.subscribed, step, k)));
    } else {
      StopSubscribed(s, t, step, k);
    }
  }

  lemma MoveSubscribed(s: Sys, t: nat, k: int)
    requires Enabled(s, Move(t, k)) && s.closed
    ensures Fire(s, Move(t, k)).subscribed == s.subscribed
  {
    hide SendMove, RegisterMove, UnregisterMove, CloseMove, HealthMove, OtherMove, WatchMove,
         MuReadFree, MuWriteFree, TcReadFree, TcWriteFree, WatchCanMove, HealthJoined;
    if s.threads[t].Watch? {
      WatchSubscribed(s, t, k);
    } else {
      MoveBeside(s, t, k);
    }
  }

  lemma FireSubscribed(s: Sys, e: Event)
    requires Enabled(s, e) && s.closed
    ensures Fire(s, e).subscribed == s.subscribed
  {
    hide SendMove, RegisterMove, UnregisterMove, CloseMove, HealthMove, OtherMove, WatchMove,
         MuReadFree, MuWriteFree, TcReadFree, TcWriteFree, WatchCanMove, HealthJoined;
    if e.Move? {
      MoveSubscribed(s, e.t, e.k);
    }
  }

  /** A closed bus takes no new subscription, in any continuation of any run. */
  lemma {:induction false} ClosedTakesNoSubscription(b: Backend, hasGlobal: bool, capacity: nat, health: set<nat>,
                                                     before: seq<Event>, later: seq<Event>)
    requires Reached(b, hasGlobal, capacity, health, before).closed
    ensures var s := Reached(b, hasGlobal, capacity, health, before);
            Exec(s, later).subscribed == s.subscribed
  {
    ReachedInv(b, hasGlobal, capacity, health, before);
    ClosedRun(Reached(b, hasGlobal, capacity, health, before), later);
  }

  lemma {:induction false} ClosedRun(s: Sys, later: seq<Event>)
    requires Inv(s) && s.closed
    ensures Exec(s, later).subscribed == s.subscribed
    decreases |later|
  {
    hide Inv, Enabled, Fire;
    if later != [] {
      if Enabled(s, later[0]) {
        FireSubscribed(s, later[0]);
        FireKeeps(s, later[0]);
      }
      ClosedRun(Apply(s, later[0]), later[1..]);
    }
  }
}

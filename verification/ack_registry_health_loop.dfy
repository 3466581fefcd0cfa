/** The health loop of the Kafka and NATS bus and the calls that stop it: what every step keeps about
    them, and that a step touches no thread but its own. */
module AckRegistryHealthLoop {
  import opened Wrappers
  import opened AckRegistryModel
  import opened AckRegistryInvariants
  import opened AckRegistryTheorems

  // ---------------------------------------------------------------- the health loop and its callers

  predicate IsLoop(pc: Pc) { pc.Watch? && OfLoop(pc.step) }

  predicate Joins(pc: Pc) { pc.Watch? && pc.step.JJoin? }

  ghost predicate Loops(threads: Threads, l: nat) {
    l in threads && IsLoop(threads[l])
  }

  /** Only the Kafka and NATS bus have this health loop; whoever joins a loop has canceled it; only a
      NATS reconnect with a subscription to restore wants `mu` twice. */
  ghost predicate WatchOk(b: Backend, threads: Threads, monitor: Option<nat>, canceled: set<nat>, subscribed: bool) {
    && (b.Memory? ==> forall t :: t in threads ==> !threads[t].Watch?)
    && (monitor.Some? ==> Loops(threads, monitor.value))
    && (forall t :: t in threads && Joins(threads[t]) ==>
          Loops(threads, threads[t].step.loop) && threads[t].step.loop in canceled)
    && (forall t :: t in threads && threads[t] == Watch(MAgain) ==> b.Nats? && subscribed)
  }

  ghost predicate Watched(s: Sys) {
    WatchOk(s.backend, s.threads, s.monitor, s.canceled, s.subscribed)
  }

  /** A step of thread t, not of the health loop, leaves the other threads and the loop's fields. */
  ghost predicate Beside(s: Sys, s': Sys, t: nat) {
    && s'.backend == s.backend && s'.monitor == s.monitor && s'.canceled == s.canceled
    && (s.subscribed ==> s'.subscribed) && (s.closed ==> s'.subscribed == s.subscribed)
    && t in s.threads && t in s'.threads && !s.threads[t].Watch? && !s'.threads[t].Watch?
    && (s'.threads == s.threads || s'.threads == s.threads[t := s'.threads[t]])
  }

  /** What every move outside the health loop looks like: maybe the registry changes, then thread t
      moves on, or the move panics. */
  ghost predicate Plain(s: Sys, s1: Sys) {
    && s1.backend == s.backend && s1.monitor == s.monitor && s1.canceled == s.canceled
    && (s.subscribed ==> s1.subscribed) && (s.closed ==> s1.subscribed == s.subscribed) && s1.threads == s.threads
  }

  lemma BesideAt(s: Sys, s1: Sys, t: nat, pc: Pc)
    requires t in s.threads && !s.threads[t].Watch? && !pc.Watch? && Plain(s, s1)
    ensures Beside(s, At(s1, t, pc), t) && At(s1, t, pc).terminal == s1.terminal
  {
  }

  lemma BesideHere(s: Sys, s1: Sys, t: nat)
    requires t in s.threads && !s.threads[t].Watch? && Plain(s, s1)
    ensures Beside(s, s1, t)
  {
  }

  lemma PlainHeap(s: Sys, heap: Heap)
    ensures Plain(s, s) && Plain(s, s.(heap := heap)) && Plain(s, s.(panicked := true))
  {
  }

  lemma PlainPending(s: Sys, heap: Heap, pending: map<nat, nat>)
    ensures Plain(s, s.(heap := heap, pending := pending))
  {
  }

  lemma PlainTable(s: Sys, table: Table, pending: map<nat, nat>, swept: bool)
    ensures Plain(s, s.(table := table, pending := pending))
    ensures Plain(s, s.(table := table, pending := pending, swept := swept))
  {
  }

  lemma PlainFlags(s: Sys, terminal: Option<int>)
    ensures Plain(s, s.(swept := true)) && Plain(s, s.(stop := true)) && Plain(s, s.(closed := true))
    ensures Plain(s, s.(terminal := terminal)) && Plain(s, s.(closeDone := true))
  {
  }

  lemma TryBeside(s: Sys, t: nat, tenant: int, ch: nat)
    requires t in s.threads && !s.threads[t].Watch? && ch < |s.heap|
    ensures Beside(s, TrySend(s, t, tenant, ch), t) && TrySend(s, t, tenant, ch).terminal == s.terminal
  {
    hide Beside, Plain;
    var c := s.heap[ch];
    PlainHeap(s, s.heap[ch := c.(accepted := c.accepted + [t])]);
    if c.closes > 0 {
      BesideHere(s, s.(panicked := true), t);
    } else if c.HasRoom() {
      BesideAt(s, s.(heap := s.heap[ch := c.(accepted := c.accepted + [t])]), t, SDone(tenant, Accepted(ch, |c.accepted|)));
    } else {
      BesideAt(s, s, t, SDone(tenant, RejectedFull));
    }
  }

  lemma CloseChanPlain(s: Sys, ch: nat)
    ensures Plain(s, CloseChan(s, ch)) && CloseChan(s, ch).terminal == s.terminal
  {
    hide Plain;
    PlainHeap(s, s.heap);
    if ch < |s.heap| && s.heap[ch].closes == 0 {
      PlainPending(s, s.heap[ch := s.heap[ch].(closes := 1)], s.pending - {ch});
    }
  }

  lemma SendBeside(s: Sys, t: nat)
    requires t in s.threads && HeapShaped(s) && OfSend(s.threads[t])
    ensures Beside(s, SendMove(s, t), t) && SendMove(s, t).terminal == s.terminal
  {
    hide Beside, TrySend;
    var pc := s.threads[t];
    if pc.SEnter? {
      BesideAt(s, s, t, if s.backend.Memory? then SGate(pc.tenant)
                        else if s.closed then SDone(pc.tenant, RejectedFrozen) else SRoute(pc.tenant));
    } else if pc.SGate? {
      BesideAt(s, s, t, if s.closed then SDone(pc.tenant, RejectedFrozen) else SRoute(pc.tenant));
    } else if pc.SRoute? {
      TryBeside(s, t, 0, 0);
      BesideAt(s, s, t, if pc.tenant != 0 then SLookup(pc.tenant)
                        else SDone(0, if s.backend.Memory? then RejectedUnregistered else RejectedFull));
    } else if pc.SLookup? {
      BesideAt(s, s, t, if pc.tenant in s.table then SSend(pc.tenant, s.table[pc.tenant])
                        else SDone(pc.tenant, RejectedUnregistered));
    } else {
      BesideHere(s, s, t);
      BesideHere(s, s.(panicked := true), t);
      if pc.SSend? && pc.ch < |s.heap| {
        TryBeside(s, t, pc.tenant, pc.ch);
      }
    }
  }

  lemma RegisterBeside(s: Sys, t: nat)
    requires t in s.threads && OfRegister(s.threads[t])
    ensures Beside(s, RegisterMove(s, t), t) && RegisterMove(s, t).terminal == s.terminal
  {
    hide Beside;
    var pc := s.threads[t];
    if pc.REnter? {
      BesideAt(s, s, t, if s.backend.Memory? then RGate(pc.tenant, pc.size)
                        else Gate(s, pc.tenant, RDone(false), RLock(pc.tenant, pc.size)));
    } else if pc.RGate? {
      BesideAt(s, s, t, Gate(s, pc.tenant, RDone(false), RLock(pc.tenant, pc.size)));
    } else if pc.RLock? {
      BesideAt(s, s, t, RInstall(pc.tenant, pc.size));
    } else if pc.RInstall? {
      BesideAt(s, s, t, RDone(false));
      BesideAt(s, Install(s, pc.tenant, pc.size), t, RDone(true));
    } else {
      BesideHere(s, s, t);
    }
  }

  lemma UnregisterBeside(s: Sys, t: nat)
    requires t in s.threads && OfUnregister(s.threads[t])
    ensures Beside(s, UnregisterMove(s, t), t) && UnregisterMove(s, t).terminal == s.terminal
  {
    hide Beside, CloseChan, Plain;
    var pc := s.threads[t];
    if pc.UEnter? {
      BesideAt(s, s, t, if s.backend.Memory? then UGate(pc.tenant) else Gate(s, pc.tenant, UDone(false), ULock(pc.tenant)));
    } else if pc.UGate? {
      BesideAt(s, s, t, Gate(s, pc.tenant, UDone(false), ULock(pc.tenant)));
    } else if pc.ULock? {
      BesideAt(s, s, t, UDetach(pc.tenant));
    } else if pc.UDetach? {
      BesideAt(s, s, t, UDone(false));
      if pc.tenant in s.table {
        BesideAt(s, Detach(s, t, pc.tenant), t, UClose(s.table[pc.tenant]));
      }
    } else if pc.UClose? {
      CloseChanPlain(s, pc.ch);
      BesideAt(s, CloseChan(s, pc.ch), t, UDone(true));
    } else {
      BesideHere(s, s, t);
    }
  }
  lemma HealthBeside(s: Sys, t: nat, k: int)
    requires t in s.threads && OfHealth(s.threads[t])
    ensures Beside(s, HealthMove(s, t, k), t) && HealthMove(s, t, k).terminal == s.terminal
  {
    hide Beside;
    var pc := s.threads[t];
    if pc.HIdle? {
      BesideAt(s, s, t, if k == 0 then HDone else HWant);
    } else if pc.HWant? {
      BesideAt(s, s, t, HPublish);
    } else if pc.HPublish? {
      BesideAt(s, s, t, HIdle);
    } else if pc.HCall? {
      BesideAt(s, s, t, AfterCall(s, pc.call));
    } else {
      BesideHere(s, s, t);
    }
  }

  lemma OtherBeside(s: Sys, t: nat, k: int)
    requires t in s.threads && OfOther(s.threads[t])
    ensures Beside(s, OtherMove(s, t, k), t) && OtherMove(s, t, k).terminal == s.terminal
  {
    hide Beside;
    var pc := s.threads[t];
    if pc.OWant? {
      BesideAt(s, s, t, OHold(pc.write));
    } else if pc.OHold? {
      BesideAt(s, s.(subscribed := s.subscribed || (k == 1 && !s.closed)), t, ODone);
    } else {
      BesideHere(s, s, t);
    }
  }

  lemma PlainCloser(s: Sys, closer: Option<nat>)
    ensures Plain(s, s.(closer := closer))
  {
  }

  lemma DetachAllPlain(s: Sys, t: nat)
    ensures Plain(s, DetachAll(s, t)) && DetachAll(s, t).terminal == s.terminal
  {
    hide Plain;
    PlainTable(s, map[], s.pending + (map ch | ch in Chans(s.table) :: t), true);
  }

  lemma DetachPlain(s: Sys, t: nat, k: int)
    requires k in s.table
    ensures Plain(s, Detach(s, t, k)) && Detach(s, t, k).terminal == s.terminal
  {
    hide Plain;
    PlainTable(s, s.table - {k}, s.pending[s.table[k] := t], true);
  }

  lemma SweepBeside(s: Sys, t: nat, k: int)
    requires CanMove(s, t, k) && s.threads[t].CSweep?
    ensures Beside(s, CloseMove(s, t, k), t) && CloseMove(s, t, k).terminal == s.terminal
  {
    hide Beside, Detach, Plain, MuWriteFree, MuReadFree, TcWriteFree, TcReadFree, HealthJoined, WatchCanMove;
    if s.table == map[] {
      PlainFlags(s, None);
      BesideAt(s, s.(swept := true), t, CStore);
    } else {
      DetachPlain(s, t, k);
      BesideAt(s, Detach(s, t, k), t, COne(s.table[k]));
    }
  }

  lemma DrainBeside(s: Sys, t: nat, k: int)
    requires CanMove(s, t, k) && s.threads[t].CDrain?
    ensures Beside(s, CloseMove(s, t, k), t) && CloseMove(s, t, k).terminal == s.terminal
  {
    hide Beside, CloseChan, Plain, MuWriteFree, MuReadFree, TcWriteFree, TcReadFree, HealthJoined, WatchCanMove;
    var rem := s.threads[t].rem;
    if rem == {} {
      PlainHeap(s, s.heap);
      BesideAt(s, s, t, CStore);
    } else {
      CloseChanPlain(s, k);
      BesideAt(s, CloseChan(s, k), t, CDrain(rem - {k}));
    }
  }

  lemma TearDownBeside(s: Sys, t: nat, k: int)
    requires CanMove(s, t, k) && TearsDown(s.threads[t])
    ensures Beside(s, CloseMove(s, t, k), t) && CloseMove(s, t, k).terminal == s.terminal
  {
    hide Beside, CloseChan, Detach, DetachAll, Plain, MuWriteFree, MuReadFree, TcWriteFree, TcReadFree, HealthJoined, WatchCanMove;
    var pc := s.threads[t];
    PlainHeap(s, s.heap);
    if pc.CDetach? {
      DetachAllPlain(s, t);
      BesideAt(s, DetachAll(s, t), t, CStop(Chans(s.table)));
    } else if pc.CSweep? {
      SweepBeside(s, t, k);
    } else if pc.COne? {
      CloseChanPlain(s, pc.ch);
      BesideAt(s, CloseChan(s, pc.ch), t, CSweep);
    } else if pc.CStop? {
      PlainFlags(s, None);
      BesideAt(s, s.(stop := true), t, CJoin(pc.rem));
    } else if pc.CJoin? {
      BesideAt(s, s, t, if s.backend.Memory? then CDrain(pc.rem) else CLock);
    } else {
      DrainBeside(s, t, k);
    }
  }

  lemma CloseBeside(s: Sys, t: nat, k: int)
    requires CanMove(s, t, k) && OfClose(s.threads[t])
    ensures Beside(s, CloseMove(s, t, k), t)
    ensures !s.threads[t].CStore? ==> CloseMove(s, t, k).terminal == s.terminal
  {
    hide Beside, Plain, CloseChan, Detach, DetachAll, MuWriteFree, MuReadFree, TcWriteFree, TcReadFree, HealthJoined, WatchCanMove;
    var pc := s.threads[t];
    PlainHeap(s, s.heap);
    PlainFlags(s, Some(k));
    PlainCloser(s, Some(t));
    if TearsDown(pc) {
      TearDownBeside(s, t, k);
    } else if pc.CEnter? {
      BesideAt(s, s.(closer := Some(t)), t, CStart);
      BesideAt(s, s, t, CWait);
    } else if pc.CStart? {
      BesideAt(s, s, t, CFreeze);
    } else if pc.CFreeze? {
      BesideAt(s, s.(closed := true), t, if s.backend.Memory? then CLock else CMu);
    } else if pc.CMu? {
      BesideAt(s, s, t, CStop({}));
    } else if pc.CLock? {
      BesideAt(s, s, t, if s.backend.Memory? then CDetach else CSweep);
    } else if pc.CStore? {
      BesideAt(s, s.(terminal := Some(k)), t, CSignal);
    } else if pc.CSignal? {
      BesideAt(s, s.(closeDone := true), t, CWait);
    } else {
      BesideAt(s, s, t, CDone(if s.terminal.Some? then s.terminal.value else 0));
    }
  }

  lemma MoveBeside(s: Sys, t: nat, k: int)
    requires Enabled(s, Move(t, k)) && !s.threads[t].Watch?
    ensures Beside(s, Fire(s, Move(t, k)), t)
    ensures !s.threads[t].CStore? ==> Fire(s, Move(t, k)).terminal == s.terminal
  {
    hide Beside, SendMove, RegisterMove, UnregisterMove, CloseMove, HealthMove, OtherMove;
    var pc := s.threads[t];
    if OfSend(pc) {
      SendBeside(s, t);
    } else if OfRegister(pc) {
      RegisterBeside(s, t);
    } else if OfUnregister(pc) {
      UnregisterBeside(s, t);
    } else if OfHealth(pc) {
      HealthBeside(s, t, k);
    } else if OfOther(pc) {
      OtherBeside(s, t, k);
    } else {
      CloseBeside(s, t, k);
    }
  }

  lemma BesideKeeps(s: Sys, s': Sys, t: nat)
    requires Watched(s) && Beside(s, s', t)
    ensures Watched(s') && s'.backend == s.backend
  {
  }

  /** One thread of the health loop moves, or a new thread joins. */
  lemma PutKeeps(b: Backend, threads: Threads, monitor: Option<nat>, canceled: set<nat>, subscribed: bool, t: nat, pc: Pc)
    requires WatchOk(b, threads, monitor, canceled, subscribed)
    requires t in threads && IsLoop(threads[t]) ==> IsLoop(pc)
    requires b.Memory? ==> !pc.Watch?
    requires Joins(pc) ==> Loops(threads, pc.step.loop) && pc.step.loop in canceled
    requires pc == Watch(MAgain) ==> b.Nats? && subscribed
    ensures WatchOk(b, threads[t := pc], monitor, canceled, subscribed)
  {
    var threads' := threads[t := pc];
    forall l | Loops(threads, l) ensures Loops(threads', l) {
    }
  }

  lemma LoopMoveWatched(s: Sys, t: nat, k: int)
    requires Watched(s) && CanMove(s, t, k) && IsLoop(s.threads[t])
    ensures Watched(LoopMove(s, t, s.threads[t].step, k)) && LoopMove(s, t, s.threads[t].step, k).backend == s.backend
  {
    hide WatchOk, MuWriteFree;
    MemoryHasNoLoop(s, t);
    PutKeeps(s.backend, s.threads, s.monitor, s.canceled, s.subscribed, t,
             Watch(AfterLoop(s.backend, s.closed, s.subscribed, s.threads[t].step, k)));
  }

  lemma MemoryHasNoLoop(s: Sys, t: nat)
    requires Watched(s) && t in s.threads && s.threads[t].Watch?
    ensures !s.backend.Memory?
    ensures s.monitor.Some? ==> Loops(s.threads, s.monitor.value)
  {
  }

  lemma MoreCanceled(b: Backend, threads: Threads, monitor: Option<nat>, canceled: set<nat>, subscribed: bool, l: nat)
    requires WatchOk(b, threads, monitor, canceled, subscribed)
    ensures WatchOk(b, threads, monitor, canceled + {l}, subscribed)
  {
  }

  lemma NewMonitor(b: Backend, threads: Threads, monitor: Option<nat>, monitor': Option<nat>, canceled: set<nat>, subscribed: bool)
    requires WatchOk(b, threads, monitor, canceled, subscribed)
    requires monitor'.Some? ==> Loops(threads, monitor'.value)
    ensures WatchOk(b, threads, monitor', canceled, subscribed)
  {
  }

  lemma CancelKeeps(s: Sys, t: nat, l: nat, restart: bool)
    requires Watched(s) && t in s.threads && s.threads[t] == Watch(JWant(restart)) && s.monitor == Some(l)
    ensures var s' := At(s.(canceled := s.canceled + {l}), t, Watch(JJoin(l, restart)));
            Watched(s') && s'.backend == s.backend
  {
    hide WatchOk;
    MemoryHasNoLoop(s, t);
    MoreCanceled(s.backend, s.threads, s.monitor, s.canceled, s.subscribed, l);
    PutKeeps(s.backend, s.threads, s.monitor, s.canceled + {l}, s.subscribed, t, Watch(JJoin(l, restart)));
  }

  lemma JoinedKeeps(s: Sys, t: nat)
    requires Watched(s) && t in s.threads && Joins(s.threads[t])
    ensures var s' := At(s.(monitor := None), t, Watch(JDone)); Watched(s') && s'.backend == s.backend
  {
    hide WatchOk;
    MemoryHasNoLoop(s, t);
    PutKeeps(s.backend, s.threads, s.monitor, s.canceled, s.subscribed, t, Watch(JDone));
    NewMonitor(s.backend, s.threads[t := Watch(JDone)], s.monitor, None, s.canceled, s.subscribed);
  }

  lemma NewLoopWatched(s: Sys, t: nat, k: nat)
    requires Watched(s) && t in s.threads && s.threads[t] == Watch(JStart) && k !in s.threads
    ensures var s' := At(At(s.(monitor := Some(k)), k, Watch(MIdle)), t, Watch(JDone));
            Watched(s') && s'.backend == s.backend
  {
    hide WatchOk;
    var threads1 := s.threads[k := Watch(MIdle)];
    MemoryHasNoLoop(s, t);
    PutKeeps(s.backend, s.threads, s.monitor, s.canceled, s.subscribed, k, Watch(MIdle));
    NewMonitor(s.backend, threads1, s.monitor, Some(k), s.canceled, s.subscribed);
    PutKeeps(s.backend, threads1, Some(k), s.canceled, s.subscribed, t, Watch(JDone));
  }

  lemma StepOn(s: Sys, t: nat, step: WatchPc)
    requires Watched(s) && t in s.threads && s.threads[t].Watch? && !OfLoop(s.threads[t].step)
    requires step.JStart? || step.JDone?
    ensures Watched(At(s, t, Watch(step))) && At(s, t, Watch(step)).backend == s.backend
  {
    hide WatchOk;
    MemoryHasNoLoop(s, t);
    PutKeeps(s.backend, s.threads, s.monitor, s.canceled, s.subscribed, t, Watch(step));
  }

  lemma StopMoveWatched(s: Sys, t: nat, k: int)
    requires Watched(s) && CanMove(s, t, k) && s.threads[t].Watch? && !OfLoop(s.threads[t].step)
    ensures Watched(StopMove(s, t, s.threads[t].step, k)) && StopMove(s, t, s.threads[t].step, k).backend == s.backend
  {
    hide Watched, MuWriteFree, At;
    var step := s.threads[t].step;
    if step.JWant? && s.monitor.Some? {
      CancelKeeps(s, t, s.monitor.value, step.restart);
    } else if step.JWant? || (step.JJoin? && step.restart) {
      StepOn(s, t, if step.restart then JStart else JDone);
    } else if step.JJoin? {
      JoinedKeeps(s, t);
    } else if step.JStart? {
      NewLoopWatched(s, t, k);
    }
  }

  lemma WatchFireKeeps(s: Sys, e: Event)
    requires Watched(s) && Enabled(s, e)
    ensures Watched(Fire(s, e)) && Fire(s, e).backend == s.backend
  {
    hide WatchOk, MuWriteFree, SendMove, RegisterMove, UnregisterMove, CloseMove, HealthMove, OtherMove, LoopMove, StopMove;
    match e
    case Start(t, pc) => PutKeeps(s.backend, s.threads, s.monitor, s.canceled, s.subscribed, t, pc);
    case Spawn(t, u, tenant) =>
      PutKeeps(s.backend, s.threads, s.monitor, s.canceled, s.subscribed, u, SEnter(tenant));
      PutKeeps(s.backend, s.threads[u := SEnter(tenant)], s.monitor, s.canceled, s.subscribed, t, HCall(u));
    case Recv(ch) =>
    case Cancel(l) => MoreCanceled(s.backend, s.threads, s.monitor, s.canceled, s.subscribed, l);
    case Move(t, k) =>
      if !s.threads[t].Watch? {
        MoveBeside(s, t, k);
        BesideKeeps(s, Fire(s, e), t);
      } else if OfLoop(s.threads[t].step) {
        LoopMoveWatched(s, t, k);
      } else {
        StopMoveWatched(s, t, k);
      }
  }

  lemma {:induction false} WatchExecKeeps(s: Sys, schedule: seq<Event>)
    requires Watched(s)
    ensures Watched(Exec(s, schedule)) && Exec(s, schedule).backend == s.backend
    decreases |schedule|
  {
    hide Watched, Enabled, Fire;
    if schedule != [] {
      if Enabled(s, schedule[0]) {
        WatchFireKeeps(s, schedule[0]);
      }
      WatchExecKeeps(Apply(s, schedule[0]), schedule[1..]);
    }
  }

  lemma {:induction false} ReachedWatch(b: Backend, hasGlobal: bool, capacity: nat, health: set<nat>, schedule: seq<Event>)
    ensures Inv(Reached(b, hasGlobal, capacity, health, schedule)) && Watched(Reached(b, hasGlobal, capacity, health, schedule))
    ensures Reached(b, hasGlobal, capacity, health, schedule).backend == b
  {
    ReachedInv(b, hasGlobal, capacity, health, schedule);
    WatchExecKeeps(Init(b, hasGlobal, capacity, health), schedule);
  }

  // ---------------------------------------------------------------- a step touches one thread

  /** The thread whose step an event is. */
  predicate Moves(e: Event, u: nat) {
    (e.Move? || e.Spawn?) && e.t == u
  }

  ghost predicate Frames(s: Sys, s': Sys, u: nat) {
    u in s.threads ==> u in s'.threads && s'.threads[u] == s.threads[u]
  }

  lemma PutFrames(s: Sys, s1: Sys, t: nat, pc: Pc, u: nat)
    requires s1.threads == s.threads && u != t
    ensures Frames(s, At(s1, t, pc), u) && At(s1, t, pc).terminal == s1.terminal
  {
  }

  lemma LoopFrames(s: Sys, t: nat, step: WatchPc, k: int, u: nat)
    requires u != t
    ensures Frames(s, LoopMove(s, t, step, k), u) && LoopMove(s, t, step, k).terminal == s.terminal
  {
  }

  lemma NewLoopFrames(s: Sys, t: nat, k: nat, u: nat)
    requires u != t && k !in s.threads
    ensures var s' := At(At(s.(monitor := Some(k)), k, Watch(MIdle)), t, Watch(JDone));
            Frames(s, s', u) && s'.terminal == s.terminal
  {
  }

  lemma StopFrames(s: Sys, t: nat, step: WatchPc, k: int, u: nat)
    requires u != t && (step.JStart? ==> 0 <= k && k !in s.threads)
    ensures Frames(s, StopMove(s, t, step, k), u) && StopMove(s, t, step, k).terminal == s.terminal
  {
    hide Frames, At;
    if step.JWant? && s.monitor.Some? {
      PutFrames(s, s.(canceled := s.canceled + {s.monitor.value}), t, Watch(JJoin(s.monitor.value, step.restart)), u);
    } else if step.JWant? || (step.JJoin? && step.restart) {
      PutFrames(s, s, t, Watch(if step.restart then JStart else JDone), u);
    } else if step.JJoin? {
      PutFrames(s, s.(monitor := None), t, Watch(JDone), u);
    } else if step.JStart? {
      NewLoopFrames(s, t, k, u);
    } else {
      SameFrames(s, u);
    }
  }

  lemma SameFrames(s: Sys, u: nat)
    ensures Frames(s, s, u)
  {
  }

  lemma BesideFrames(s: Sys, s': Sys, t: nat, u: nat)
    requires Beside(s, s', t) && u != t
    ensures Frames(s, s', u)
  {
  }

  lemma MoveFrames(s: Sys, t: nat, k: int, u: nat)
    requires Enabled(s, Move(t, k)) && u != t
    ensures Frames(s, Fire(s, Move(t, k)), u)
    ensures !s.threads[t].CStore? ==> Fire(s, Move(t, k)).terminal == s.terminal
  {
    hide Frames, Beside, SendMove, RegisterMove, UnregisterMove, CloseMove, HealthMove, OtherMove, LoopMove, StopMove,
         MuReadFree, MuWriteFree, TcReadFree, TcWriteFree, HealthJoined;
    if !s.threads[t].Watch? {
      MoveBeside(s, t, k);
      BesideFrames(s, Fire(s, Move(t, k)), t, u);
    } else if OfLoop(s.threads[t].step) {
      LoopFrames(s, t, s.threads[t].step, k, u);
    } else {
      StopFrames(s, t, s.threads[t].step, k, u);
    }
  }

  /** No step touches another thread, and only one of Close writes the stored error. */
  lemma OthersStay(s: Sys, e: Event, u: nat)
    requires Enabled(s, e) && !Moves(e, u)
    ensures Frames(s, Fire(s, e), u)
    ensures !(e.Move? && s.threads[e.t].CStore?) ==> Fire(s, e).terminal == s.terminal
  {
    if e.Move? {
      MoveFrames(s, e.t, e.k, u);
    }
  }
}

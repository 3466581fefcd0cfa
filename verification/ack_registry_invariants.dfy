/** What every step of the ACK registry keeps. */
module AckRegistryInvariants {
  import opened Wrappers
  import opened AckRegistryModel

  type Threads = map<nat, Pc>
  type Table = map<int, nat>
  type Heap = seq<Chan>

  // ---------------------------------------------------------------- the invariant

  /** A write lock excludes every other holder of the same lock. */
  ghost predicate LocksOk(b: Backend, threads: Threads) {
    && (forall t, u :: t in threads && u in threads && t != u && HoldsTcW(threads[t]) ==>
          !HoldsTcW(threads[u]) && !HoldsTcR(threads[u]))
    && (forall t, u :: t in threads && u in threads && t != u && HoldsMuW(b, threads[t]) ==>
          !HoldsMuW(b, threads[u]) && !HoldsMuR(b, threads[u]))
  }

  /** A registered channel is open and belongs to its tenant. */
  ghost predicate TableOk(b: Backend, table: Table, heap: Heap) {
    && |heap| > 0 && heap[0].tenant == 0 && heap[0].closes == 0
    && (forall i :: i in table ==>
          0 < table[i] < |heap| && heap[table[i]].tenant == i && heap[table[i]].closes == 0 && ValidTenant(b, i))
  }

  ghost predicate Registered(c: nat, table: Table, heap: Heap)
    requires c < |heap|
  {
    heap[c].tenant in table && table[heap[c].tenant] == c
  }

  /** Every tenant channel is registered, or detached and owned by the call that will close it, or
      closed exactly once. */
  ghost predicate ChansOk(table: Table, heap: Heap, pending: map<nat, nat>) {
    && (forall c :: 0 < c < |heap| ==>
          && heap[c].closes <= 1 && heap[c].tenant != 0
          && (heap[c].closes == 0 <==> Registered(c, table, heap) || c in pending))
    && (forall c :: c in pending ==> 0 < c < |heap| && !Registered(c, table, heap))
  }

  /** The pcs from which a detached channel is closed. */
  predicate WillClose(pc: Pc, c: nat) {
    ((pc.UClose? || pc.COne?) && pc.ch == c) || ((pc.CStop? || pc.CJoin? || pc.CDrain?) && c in pc.rem)
  }

  predicate Owns(pc: Pc) {
    pc.UClose? || pc.COne? || pc.CStop? || pc.CJoin? || pc.CDrain?
  }

  ghost predicate OwnersOk(threads: Threads, pending: map<nat, nat>) {
    && (forall c :: c in pending ==> pending[c] in threads && WillClose(threads[pending[c]], c))
    && (forall t, c :: t in threads && WillClose(threads[t], c) ==> c in pending && pending[c] == t)
  }

  /** A sender that looked its channel up still finds it registered: it holds the read lock. */
  ghost predicate RoutesOk(threads: Threads, table: Table) {
    && (forall t :: t in threads && threads[t].SSend? ==>
          threads[t].tenant in table && table[threads[t].tenant] == threads[t].ch && threads[t].tenant != 0)
    && (forall t :: t in threads && threads[t].SLookup? ==> threads[t].tenant != 0)
  }

  /** A registration that passed the gate has a valid tenant; in the memory bus it holds the lock
      that the freeze needs, so admission is still open. */
  ghost predicate GatesOk(b: Backend, threads: Threads, closed: bool) {
    forall t :: t in threads && (threads[t].RLock? || threads[t].RInstall?) ==>
      ValidTenant(b, threads[t].tenant) && (b.Memory? ==> !closed)
  }

  predicate InClose(pc: Pc) {
    pc.CStart? || pc.CFreeze? || pc.CMu? || pc.CLock? || pc.CDetach? || pc.CSweep? || pc.COne?
    || pc.CStop? || pc.CJoin? || pc.CDrain? || pc.CStore? || pc.CSignal?
  }

  /** What the teardown call at pc has done so far. */
  ghost predicate Progressed(b: Backend, pc: Pc, closed: bool, swept: bool, terminal: Option<int>, closeDone: bool) {
    && (closed <==> !(pc.CStart? || pc.CFreeze?))
    && (swept <==> (b.Memory? && (pc.CStop? || pc.CJoin?)) || pc.CDrain? || pc.CStore? || pc.CSignal? || pc.CWait? || pc.CDone?)
    && (terminal.Some? <==> pc.CSignal? || pc.CWait? || pc.CDone?)
    && (closeDone <==> pc.CWait? || pc.CDone?)
    && (b.Memory? ==> !pc.CSweep? && !pc.COne? && !pc.CMu?)
    && (!b.Memory? ==> !pc.CDetach? && !pc.CDrain? && (pc.CStop? || pc.CJoin? ==> pc.rem == {}))
  }

  /** One call at most is inside the teardown, and it is the one that won closeOnce. */
  ghost predicate CloserOk(b: Backend, threads: Threads, closer: Option<nat>,
                           closed: bool, swept: bool, terminal: Option<int>, closeDone: bool)
  {
    && (forall t :: t in threads && InClose(threads[t]) ==> closer == Some(t))
    && (forall t :: t in threads && threads[t].CWait? ==> closer.Some?)
    && (forall t :: t in threads && threads[t].CDone? ==> closeDone && terminal == Some(threads[t].err))
    && (closer.None? ==> !closed && !swept && terminal == None && !closeDone)
    && (closer.Some? ==>
          && closer.value in threads
          && (InClose(threads[closer.value]) || threads[closer.value].CWait? || threads[closer.value].CDone?)
          && Progressed(b, threads[closer.value], closed, swept, terminal, closeDone))
  }

  /** Once the table is emptied it stays empty, and no unregistration is about to close. */
  ghost predicate SweptOk(threads: Threads, table: Table, swept: bool) {
    swept ==> table == map[] && forall t :: t in threads ==> !threads[t].UClose?
  }

  ghost predicate HealthOk(threads: Threads, health: set<nat>) {
    && (forall h :: h in health ==> h in threads && OfHealth(threads[h]))
    && (forall t :: t in threads && OfHealth(threads[t]) ==> t in health)
    && (forall t :: t in threads && threads[t].HCall? ==> RunsSend(threads, threads[t].call))
  }

  /** What an ACK sender waits for is a send. */
  ghost predicate RunsSend(threads: Threads, u: nat) {
    u in threads && OfSend(threads[u])
  }

  /** Close joins the background loops only after it has told them to stop. */
  ghost predicate StopOk(threads: Threads, stop: bool) {
    forall t :: t in threads && threads[t].CJoin? ==> stop
  }

  /** Every accepted result is in exactly one place, on the channel of its own tenant, and every
      sender that was told so is right. */
  ghost predicate AcceptedOk(threads: Threads, heap: Heap) {
    && (forall c, i :: 0 <= c < |heap| && 0 <= i < |heap[c].accepted| ==>
          && heap[c].accepted[i] in threads
          && threads[heap[c].accepted[i]] == SDone(heap[c].tenant, Accepted(c, i)))
    && (forall t :: t in threads && threads[t].SDone? && threads[t].outcome.Accepted? ==>
          var o := threads[t].outcome;
          o.ch < |heap| && o.pos < |heap[o.ch].accepted| && heap[o.ch].accepted[o.pos] == t)
    && (forall c :: 0 <= c < |heap| ==> heap[c].taken <= |heap[c].accepted| <= heap[c].taken + heap[c].capacity)
  }

  /** A call that started after the freeze accepts nothing and changes nothing. */
  ghost predicate LateOk(threads: Threads, late: set<nat>, closed: bool) {
    forall t :: t in late ==> closed && t in threads && FindsFrozen(threads[t])
  }

  predicate FindsFrozen(pc: Pc) {
    && (OfSend(pc) ==> pc.SEnter? || pc.SGate? || (pc.SDone? && pc.outcome == RejectedFrozen))
    && (OfRegister(pc) ==> pc.REnter? || pc.RGate? || pc == RDone(false))
    && (OfUnregister(pc) ==> pc.UEnter? || pc.UGate? || pc == UDone(false))
  }

  ghost predicate Inv(s: Sys) {
    && !s.panicked
    && LocksOk(s.backend, s.threads)
    && TableOk(s.backend, s.table, s.heap)
    && ChansOk(s.table, s.heap, s.pending)
    && OwnersOk(s.threads, s.pending)
    && RoutesOk(s.threads, s.table)
    && GatesOk(s.backend, s.threads, s.closed)
    && CloserOk(s.backend, s.threads, s.closer, s.closed, s.swept, s.terminal, s.closeDone)
    && SweptOk(s.threads, s.table, s.swept)
    && HealthOk(s.threads, s.health)
    && StopOk(s.threads, s.stop)
    && AcceptedOk(s.threads, s.heap)
    && LateOk(s.threads, s.late, s.closed)
  }

  /** What only ever grows: the channels and what they accepted and delivered, the freeze, and the
      progress of Close, whose winner and error never change. After the sweep no channel is made. */
  ghost predicate Later(s: Sys, s': Sys) {
    && (s.closed ==> s'.closed)
    && (s.swept ==> s'.swept && |s'.heap| == |s.heap|)
    && (s.closeDone ==> s'.closeDone)
    && (s.closer.Some? ==> s'.closer == s.closer)
    && (s.terminal.Some? ==> s'.terminal == s.terminal)
    && Grows(s.heap, s'.heap)
  }

  ghost predicate Grows(heap: Heap, heap': Heap) {
    && |heap| <= |heap'|
    && forall c :: 0 <= c < |heap| ==>
         && heap'[c].tenant == heap[c].tenant && heap'[c].capacity == heap[c].capacity
         && heap[c].accepted <= heap'[c].accepted
         && heap[c].taken <= heap'[c].taken && heap[c].closes <= heap'[c].closes
  }

  /** What one step must show. */
  ghost predicate Steps(s: Sys, s': Sys) {
    Inv(s') && Later(s, s')
  }

  lemma InitInv(b: Backend, hasGlobal: bool, capacity: nat, health: set<nat>)
    ensures Inv(Init(b, hasGlobal, capacity, health))
  {
  }

  // ---------------------------------------------------------------- moving one thread

  /** The step respects the locks: what the thread holds afterwards it held before, or found free. */
  ghost predicate Locked(s: Sys, t: nat, pc: Pc)
    requires t in s.threads
  {
    && (HoldsTcW(pc) ==> HoldsTcW(s.threads[t]) || TcWriteFree(s))
    && (HoldsTcR(pc) ==> HoldsTcR(s.threads[t]) || TcReadFree(s))
    && (HoldsMuW(s.backend, pc) ==> HoldsMuW(s.backend, s.threads[t]) || MuWriteFree(s))
    && (HoldsMuR(s.backend, pc) ==> HoldsMuR(s.backend, s.threads[t]) || MuReadFree(s))
  }

  lemma MoveLocks(s: Sys, t: nat, pc: Pc)
    requires LocksOk(s.backend, s.threads) && t in s.threads && Locked(s, t, pc)
    ensures LocksOk(s.backend, s.threads[t := pc])
  {
  }

  /** While a call holds the channel write lock nobody is between lookup and send, or about to close. */
  lemma WriterAlone(b: Backend, threads: Threads, t: nat)
    requires LocksOk(b, threads) && t in threads && HoldsTcW(threads[t])
    ensures forall u :: u in threads && u != t ==> !threads[u].SSend? && !threads[u].UClose? && !threads[u].COne?
  {
  }

  lemma MoveOwners(threads: Threads, pending: map<nat, nat>, t: nat, pc: Pc)
    requires OwnersOk(threads, pending) && t in threads
    requires forall c: nat :: WillClose(pc, c) <==> WillClose(threads[t], c)
    ensures OwnersOk(threads[t := pc], pending)
  {
  }

  lemma MoveRoutes(threads: Threads, table: Table, t: nat, pc: Pc)
    requires RoutesOk(threads, table)
    requires pc.SSend? ==> pc.tenant in table && table[pc.tenant] == pc.ch && pc.tenant != 0
    requires pc.SLookup? ==> pc.tenant != 0
    ensures RoutesOk(threads[t := pc], table)
  {
  }

  lemma MoveGates(b: Backend, threads: Threads, closed: bool, t: nat, pc: Pc)
    requires GatesOk(b, threads, closed)
    requires pc.RLock? || pc.RInstall? ==> ValidTenant(b, pc.tenant) && (b.Memory? ==> !closed)
    ensures GatesOk(b, threads[t := pc], closed)
  {
  }

  lemma MoveAccepted(threads: Threads, heap: Heap, t: nat, pc: Pc)
    requires AcceptedOk(threads, heap)
    requires t in threads ==> !threads[t].SDone?
    requires pc.SDone? ==> !pc.outcome.Accepted?
    ensures AcceptedOk(threads[t := pc], heap)
  {
  }

  lemma MoveLate(threads: Threads, late: set<nat>, closed: bool, t: nat, pc: Pc)
    requires LateOk(threads, late, closed)
    requires t in late ==> FindsFrozen(pc)
    ensures LateOk(threads[t := pc], late, closed)
  {
  }

  lemma MoveSwept(threads: Threads, table: Table, swept: bool, t: nat, pc: Pc)
    requires SweptOk(threads, table, swept) && (swept ==> !pc.UClose?)
    ensures SweptOk(threads[t := pc], table, swept)
  {
  }

  lemma MoveHealth(threads: Threads, health: set<nat>, t: nat, pc: Pc)
    requires HealthOk(threads, health) && t in threads && (OfHealth(pc) <==> OfHealth(threads[t]))
    requires (OfSend(threads[t]) ==> OfSend(pc)) && (pc.HCall? ==> RunsSend(threads, pc.call))
    ensures HealthOk(threads[t := pc], health)
  {
  }

  lemma MoveStop(threads: Threads, stop: bool, t: nat, pc: Pc)
    requires StopOk(threads, stop) && (pc.CJoin? ==> stop)
    ensures StopOk(threads[t := pc], stop)
  {
  }

  /** A call outside the teardown that stays outside, or waits, or returns the stored error. */
  lemma MoveOutside(s: Sys, t: nat, pc: Pc)
    requires CloserOk(s.backend, s.threads, s.closer, s.closed, s.swept, s.terminal, s.closeDone)
    requires t in s.threads && !InClose(pc) && !InClose(s.threads[t])
    requires pc.CDone? ==> s.closeDone && s.terminal == Some(pc.err)
    requires pc.CWait? ==> s.closer.Some?
    requires s.threads[t].CWait? || s.threads[t].CDone? ==> pc.CWait? || pc.CDone?
    ensures CloserOk(s.backend, s.threads[t := pc], s.closer, s.closed, s.swept, s.terminal, s.closeDone)
  {
  }

  /** A step of the teardown call. */
  lemma MoveCloser(s: Sys, t: nat, pc: Pc, closed: bool, swept: bool, terminal: Option<int>, closeDone: bool)
    requires CloserOk(s.backend, s.threads, s.closer, s.closed, s.swept, s.terminal, s.closeDone)
    requires t in s.threads && InClose(s.threads[t]) && (InClose(pc) || pc.CWait?)
    requires Progressed(s.backend, pc, closed, swept, terminal, closeDone)
    requires s.closeDone ==> closeDone && terminal == s.terminal
    ensures CloserOk(s.backend, s.threads[t := pc], s.closer, closed, swept, terminal, closeDone)
  {
  }

  // ---------------------------------------------------------------- steps that only move

  /** What a step that only moves its thread, outside the teardown, must respect. */
  ghost predicate Harmless(s: Sys, t: nat, pc: Pc)
    requires t in s.threads
  {
    && Locked(s, t, pc)
    && !Finished(s.threads[t])
    && !Owns(pc) && !Owns(s.threads[t])
    && (pc.SSend? ==> pc.tenant in s.table && s.table[pc.tenant] == pc.ch && pc.tenant != 0)
    && (pc.SLookup? ==> pc.tenant != 0)
    && (pc.RLock? || pc.RInstall? ==> ValidTenant(s.backend, pc.tenant) && (s.backend.Memory? ==> !s.closed))
    && (pc.SDone? ==> !pc.outcome.Accepted?)
    && (OfHealth(pc) <==> OfHealth(s.threads[t])) && (OfSend(s.threads[t]) ==> OfSend(pc))
    && (pc.HCall? ==> RunsSend(s.threads, pc.call))
    && (t in s.late ==> FindsFrozen(pc))
  }

  lemma HarmlessParts(s: Sys, t: nat, pc: Pc)
    requires Inv(s) && t in s.threads && Harmless(s, t, pc)
    ensures var th := s.threads[t := pc];
            && LocksOk(s.backend, th) && OwnersOk(th, s.pending) && RoutesOk(th, s.table)
            && GatesOk(s.backend, th, s.closed) && SweptOk(th, s.table, s.swept) && HealthOk(th, s.health) && StopOk(th, s.stop)
            && AcceptedOk(th, s.heap) && LateOk(th, s.late, s.closed)
  {
    hide LocksOk, TableOk, ChansOk, OwnersOk, RoutesOk, GatesOk, SweptOk, HealthOk, StopOk, AcceptedOk, LateOk;
    MoveLocks(s, t, pc);
    MoveOwners(s.threads, s.pending, t, pc);
    MoveRoutes(s.threads, s.table, t, pc);
    MoveGates(s.backend, s.threads, s.closed, t, pc);
    MoveSwept(s.threads, s.table, s.swept, t, pc);
    MoveHealth(s.threads, s.health, t, pc);
    MoveStop(s.threads, s.stop, t, pc);
    MoveAccepted(s.threads, s.heap, t, pc);
    MoveLate(s.threads, s.late, s.closed, t, pc);
  }

  predicate Outside(pc: Pc) {
    !InClose(pc) && !pc.CWait? && !pc.CDone?
  }

  lemma HarmlessKeeps(s: Sys, t: nat, pc: Pc)
    requires Inv(s) && t in s.threads && Harmless(s, t, pc) && Outside(pc) && Outside(s.threads[t])
    ensures Steps(s, At(s, t, pc))
  {
    hide LocksOk, TableOk, ChansOk, OwnersOk, RoutesOk, GatesOk, SweptOk, HealthOk, StopOk, AcceptedOk, LateOk;
    HarmlessParts(s, t, pc);
    MoveOutside(s, t, pc);
  }

  // ---------------------------------------------------------------- sending

  /** What the invariant says about one thread and the registered tenants. */
  ghost predicate Known(s: Sys, t: nat) {
    && t in s.threads
    && (t in s.late ==> s.closed && FindsFrozen(s.threads[t]))
    && (forall i :: i in s.table ==> ValidTenant(s.backend, i))
  }

  lemma KnownThread(s: Sys, t: nat)
    requires Inv(s) && t in s.threads
    ensures Known(s, t)
  {
  }

  lemma EnterSend(s: Sys, t: nat, tenant: int)
    requires Inv(s) && CanMove(s, t, 0) && HeapShaped(s) && s.threads[t] == SEnter(tenant)
    ensures Steps(s, SendMove(s, t))
  {
    hide Inv, Later;
    KnownThread(s, t);
    HarmlessKeeps(s, t, if s.backend.Memory? then SGate(tenant)
                        else if s.closed then SDone(tenant, RejectedFrozen) else SRoute(tenant));
  }

  lemma GateSend(s: Sys, t: nat, tenant: int)
    requires Inv(s) && CanMove(s, t, 0) && HeapShaped(s) && s.threads[t] == SGate(tenant)
    ensures Steps(s, SendMove(s, t))
  {
    hide Inv, Later;
    KnownThread(s, t);
    if s.closed {
      HarmlessKeeps(s, t, SDone(tenant, RejectedFrozen));
    } else {
      HarmlessKeeps(s, t, SRoute(tenant));
    }
  }

  lemma RouteSend(s: Sys, t: nat, tenant: int)
    requires Inv(s) && CanMove(s, t, 0) && HeapShaped(s) && s.threads[t] == SRoute(tenant)
    requires tenant != 0 || !s.hasGlobal
    ensures Steps(s, SendMove(s, t))
  {
    hide Inv, Later;
    KnownThread(s, t);
    HarmlessKeeps(s, t, if tenant != 0 then SLookup(tenant)
                        else SDone(0, if s.backend.Memory? then RejectedUnregistered else RejectedFull));
  }

  lemma LookupSend(s: Sys, t: nat, tenant: int)
    requires Inv(s) && CanMove(s, t, 0) && HeapShaped(s) && s.threads[t] == SLookup(tenant)
    ensures Steps(s, SendMove(s, t))
  {
    hide Inv, Later;
    KnownThread(s, t);
    if tenant in s.table {
      HarmlessKeeps(s, t, SSend(tenant, s.table[tenant]));
    } else {
      HarmlessKeeps(s, t, SDone(tenant, RejectedUnregistered));
    }
  }

  lemma AcceptKeeps(threads: Threads, heap: Heap, t: nat, tenant: int, c: nat)
    requires AcceptedOk(threads, heap) && t in threads && !threads[t].SDone?
    requires c < |heap| && heap[c].tenant == tenant && heap[c].HasRoom()
    ensures AcceptedOk(threads[t := SDone(tenant, Accepted(c, |heap[c].accepted|))],
                       heap[c := heap[c].(accepted := heap[c].accepted + [t])])
  {
    var heap' := heap[c := heap[c].(accepted := heap[c].accepted + [t])];
    assert forall d, i :: 0 <= d < |heap| && 0 <= i < |heap[d].accepted| ==> heap'[d].accepted[i] == heap[d].accepted[i];
  }

  /** Only `accepted` changes: the table and the fate of the channels do not depend on it. */
  lemma AcceptFrames(s: Sys, t: nat, c: nat)
    requires c < |s.heap| && TableOk(s.backend, s.table, s.heap) && ChansOk(s.table, s.heap, s.pending)
    ensures var heap := s.heap[c := s.heap[c].(accepted := s.heap[c].accepted + [t])];
            TableOk(s.backend, s.table, heap) && ChansOk(s.table, heap, s.pending) && Grows(s.heap, heap)
  {
    var heap := s.heap[c := s.heap[c].(accepted := s.heap[c].accepted + [t])];
    assert forall d: nat :: d < |heap| ==> Registered(d, s.table, heap) == Registered(d, s.table, s.heap);
  }

  lemma AcceptedKeeps(s: Sys, t: nat, tenant: int, c: nat)
    requires Inv(s) && t in s.threads && t !in s.late && c < |s.heap| && s.heap[c].tenant == tenant && s.heap[c].HasRoom()
    requires s.threads[t].SSend? || s.threads[t].SRoute?
    ensures Steps(s, At(s.(heap := s.heap[c := s.heap[c].(accepted := s.heap[c].accepted + [t])]), t,
                   SDone(tenant, Accepted(c, |s.heap[c].accepted|))))
  {
    AcceptFrames(s, t, c);
    AcceptKeeps(s.threads, s.heap, t, tenant, c);
    DoneSendingParts(s, t, SDone(tenant, Accepted(c, |s.heap[c].accepted|)));
  }

  /** A send finds its channel open: it is the global one, or it is registered and the sender holds
      the lock that unregistering it would need. */
  lemma SendKeeps(s: Sys, t: nat, tenant: int, c: nat)
    requires Inv(s) && t in s.threads && t !in s.late && c < |s.heap| && s.heap[c].closes == 0 && s.heap[c].tenant == tenant
    requires s.threads[t].SSend? || s.threads[t].SRoute?
    ensures Steps(s, TrySend(s, t, tenant, c))
  {
    hide Inv, Later;
    if s.heap[c].HasRoom() {
      AcceptedKeeps(s, t, tenant, c);
    } else {
      HarmlessKeeps(s, t, SDone(tenant, RejectedFull));
    }
  }

  lemma SenderFacts(s: Sys, t: nat)
    requires Inv(s) && t in s.threads
    ensures s.threads[t].SSend? || s.threads[t].SRoute? ==> t !in s.late
    ensures s.heap[0].tenant == 0 && s.heap[0].closes == 0
    ensures s.threads[t].SSend? ==>
              var c := s.threads[t].ch; c < |s.heap| && s.heap[c].closes == 0 && s.heap[c].tenant == s.threads[t].tenant
  {
  }

  lemma DoneSendingParts(s: Sys, t: nat, pc: Pc)
    requires Inv(s) && t in s.threads && t !in s.late && pc.SDone? && (s.threads[t].SSend? || s.threads[t].SRoute?)
    ensures var th := s.threads[t := pc];
            && LocksOk(s.backend, th) && OwnersOk(th, s.pending) && RoutesOk(th, s.table)
            && GatesOk(s.backend, th, s.closed) && SweptOk(th, s.table, s.swept) && HealthOk(th, s.health) && StopOk(th, s.stop)
            && LateOk(th, s.late, s.closed)
            && CloserOk(s.backend, th, s.closer, s.closed, s.swept, s.terminal, s.closeDone)
  {
    hide LocksOk, TableOk, ChansOk, OwnersOk, RoutesOk, GatesOk, SweptOk, HealthOk, StopOk, AcceptedOk, LateOk;
    MoveLocks(s, t, pc);
    MoveOwners(s.threads, s.pending, t, pc);
    MoveRoutes(s.threads, s.table, t, pc);
    MoveGates(s.backend, s.threads, s.closed, t, pc);
    MoveSwept(s.threads, s.table, s.swept, t, pc);
    MoveHealth(s.threads, s.health, t, pc);
    MoveStop(s.threads, s.stop, t, pc);
    MoveLate(s.threads, s.late, s.closed, t, pc);
    MoveOutside(s, t, pc);
  }

  lemma SendMoveKeeps(s: Sys, t: nat)
    requires Inv(s) && CanMove(s, t, 0) && HeapShaped(s) && OfSend(s.threads[t])
    ensures Steps(s, SendMove(s, t))
  {
    hide Inv, Later;
    SenderFacts(s, t);
    match s.threads[t]
    case SEnter(tenant) => EnterSend(s, t, tenant);
    case SGate(tenant) => GateSend(s, t, tenant);
    case SRoute(tenant) =>
      if tenant == 0 && s.hasGlobal {
        SendKeeps(s, t, 0, 0);
      } else {
        RouteSend(s, t, tenant);
      }
    case SLookup(tenant) => LookupSend(s, t, tenant);
    case SSend(tenant, ch) => SendKeeps(s, t, tenant, ch);
  }

  // ---------------------------------------------------------------- registering

  lemma EnterRegister(s: Sys, t: nat, tenant: int, size: int)
    requires Inv(s) && CanMove(s, t, 0) && s.threads[t] == REnter(tenant, size) && s.backend.Memory?
    ensures Steps(s, At(s, t, RGate(tenant, size)))
  {
    hide Inv, Later;
    KnownThread(s, t);
    HarmlessKeeps(s, t, RGate(tenant, size));
  }

  lemma GateRegister(s: Sys, t: nat, tenant: int, size: int)
    requires Inv(s) && CanMove(s, t, 0)
    requires s.threads[t] == RGate(tenant, size) || (s.threads[t] == REnter(tenant, size) && !s.backend.Memory?)
    ensures Steps(s, At(s, t, Gate(s, tenant, RDone(false), RLock(tenant, size))))
  {
    hide Inv, Later;
    KnownThread(s, t);
    HarmlessKeeps(s, t, Gate(s, tenant, RDone(false), RLock(tenant, size)));
  }

  lemma LockRegister(s: Sys, t: nat, tenant: int, size: int)
    requires Inv(s) && CanMove(s, t, 0) && s.threads[t] == RLock(tenant, size)
    ensures Steps(s, RegisterMove(s, t))
  {
    hide LocksOk, TableOk, ChansOk, OwnersOk, RoutesOk, SweptOk, HealthOk, StopOk, AcceptedOk, LateOk;
    KnownThread(s, t);
    HarmlessKeeps(s, t, RInstall(tenant, size));
  }

  /** A new channel joins the heap behind all others. */
  lemma InstallParts(s: Sys, tenant: int, size: int)
    requires TableOk(s.backend, s.table, s.heap) && ChansOk(s.table, s.heap, s.pending)
    requires AcceptedOk(s.threads, s.heap) && RoutesOk(s.threads, s.table)
    requires tenant !in s.table && ValidTenant(s.backend, tenant)
    ensures var s' := Install(s, tenant, size);
            && TableOk(s'.backend, s'.table, s'.heap) && ChansOk(s'.table, s'.heap, s'.pending)
            && AcceptedOk(s'.threads, s'.heap) && RoutesOk(s'.threads, s'.table)
            && Grows(s.heap, s'.heap)
  {
    var s' := Install(s, tenant, size);
    assert forall c: nat :: c < |s.heap| ==> s'.heap[c] == s.heap[c];
    forall c: nat | c < |s.heap| ensures Registered(c, s'.table, s'.heap) == Registered(c, s.table, s.heap) {
    }
    assert Registered(|s.heap|, s'.table, s'.heap);
  }

  lemma InstallInv(s: Sys, tenant: int, size: int)
    requires Inv(s) && tenant !in s.table && ValidTenant(s.backend, tenant) && !s.swept
    ensures Steps(s, Install(s, tenant, size))
  {
    hide LocksOk, ChansOk, OwnersOk, RoutesOk, GatesOk, HealthOk, StopOk, AcceptedOk, LateOk;
    InstallParts(s, tenant, size);
  }

  lemma InstallKeeps(s: Sys, t: nat)
    requires Inv(s) && t in s.threads && s.threads[t].RInstall?
    requires s.threads[t].tenant !in s.table && (!s.backend.Memory? ==> !s.closed)
    ensures Steps(s, At(Install(s, s.threads[t].tenant, s.threads[t].size), t, RDone(true)))
  {
    hide Inv, Later;
    var pc := s.threads[t];
    var s' := Install(s, pc.tenant, pc.size);
    InstallerFacts(s, t);
    InstallInv(s, pc.tenant, pc.size);
    HarmlessKeeps(s', t, RDone(true));
    LaterTrans(s, s', At(s', t, RDone(true)));
  }

  /** A registration at its lock has a valid tenant, and admission is open. */
  lemma InstallerFacts(s: Sys, t: nat)
    requires Inv(s) && t in s.threads && s.threads[t].RInstall? && (!s.backend.Memory? ==> !s.closed)
    ensures ValidTenant(s.backend, s.threads[t].tenant) && !s.swept && t !in s.late
  {
    hide LocksOk, TableOk, ChansOk, OwnersOk, RoutesOk, HealthOk, AcceptedOk;
    NotSwept(s);
  }

  lemma NotSwept(s: Sys)
    requires Inv(s) && !s.closed
    ensures !s.swept && s.late == {}
  {
  }

  lemma RegisterMoveKeeps(s: Sys, t: nat)
    requires Inv(s) && CanMove(s, t, 0) && OfRegister(s.threads[t])
    ensures Steps(s, RegisterMove(s, t))
  {
    hide Inv, Later;
    match s.threads[t]
    case REnter(tenant, size) =>
      if s.backend.Memory? {
        EnterRegister(s, t, tenant, size);
      } else {
        GateRegister(s, t, tenant, size);
      }
    case RGate(tenant, size) => GateRegister(s, t, tenant, size);
    case RLock(tenant, size) => LockRegister(s, t, tenant, size);
    case RInstall(tenant, size) => RegisterAtLock(s, t, tenant, size);
  }

  lemma RegisterAtLock(s: Sys, t: nat, tenant: int, size: int)
    requires Inv(s) && CanMove(s, t, 0) && s.threads[t] == RInstall(tenant, size)
    ensures Steps(s, RegisterMove(s, t))
  {
    hide Inv, Later;
    KnownThread(s, t);
    if (!s.backend.Memory? && s.closed) || tenant in s.table {
      HarmlessKeeps(s, t, RDone(false));
    } else {
      InstallKeeps(s, t);
    }
  }

  // ---------------------------------------------------------------- detaching and closing one channel

  lemma DetachTable(s: Sys, t: nat, tenant: int)
    requires TableOk(s.backend, s.table, s.heap) && ChansOk(s.table, s.heap, s.pending) && tenant in s.table
    ensures var s' := Detach(s, t, tenant);
            TableOk(s'.backend, s'.table, s'.heap) && ChansOk(s'.table, s'.heap, s'.pending)
    ensures s.table[tenant] !in s.pending
  {
    var s' := Detach(s, t, tenant);
    var ch := s.table[tenant];
    forall c: nat | c < |s.heap| ensures Registered(c, s'.table, s'.heap) <==> Registered(c, s.table, s.heap) && c != ch {
    }
    assert Registered(ch, s.table, s.heap);
  }

  lemma DetachOwners(threads: Threads, pending: map<nat, nat>, t: nat, ch: nat, pc: Pc)
    requires OwnersOk(threads, pending) && t in threads && !Owns(threads[t]) && ch !in pending
    requires pc == UClose(ch) || pc == COne(ch)
    ensures OwnersOk(threads[t := pc], pending[ch := t])
  {
    forall c | c in pending ensures pending[c] != t {
    }
  }

  /** The parts a detaching call must keep besides table and owners: it holds the write lock. */
  lemma WriterParts(s: Sys, t: nat, pc: Pc, table: Table)
    requires Inv(s) && t in s.threads && HoldsTcW(s.threads[t]) && !s.threads[t].RInstall?
    requires pc.UClose? || pc.COne?
    requires pc.UClose? ==> s.threads[t].UDetach? && !s.swept
    requires pc.COne? ==> s.threads[t].CSweep?
    ensures var th := s.threads[t := pc];
            && LocksOk(s.backend, th) && RoutesOk(th, table) && GatesOk(s.backend, th, s.closed)
            && HealthOk(th, s.health) && StopOk(th, s.stop) && AcceptedOk(th, s.heap) && LateOk(th, s.late, s.closed)
  {
    hide LocksOk, TableOk, ChansOk, OwnersOk, GatesOk, SweptOk, HealthOk, StopOk, AcceptedOk;
    MoveLocks(s, t, pc);
    WriterAlone(s.backend, s.threads, t);
    MoveGates(s.backend, s.threads, s.closed, t, pc);
    MoveHealth(s.threads, s.health, t, pc);
    MoveStop(s.threads, s.stop, t, pc);
    MoveAccepted(s.threads, s.heap, t, pc);
    MoveLate(s.threads, s.late, s.closed, t, pc);
  }

  lemma DetachKeeps(s: Sys, t: nat, tenant: int)
    requires Inv(s) && t in s.threads && s.threads[t].UDetach? && tenant in s.table
    ensures Steps(s, At(Detach(s, t, tenant), t, UClose(s.table[tenant])))
  {
    var pc := UClose(s.table[tenant]);
    DetachTable(s, t, tenant);
    DetachOwners(s.threads, s.pending, t, s.table[tenant], pc);
    WriterParts(s, t, pc, s.table - {tenant});
    MoveOutside(s, t, pc);
  }

  lemma SweepKeeps(s: Sys, t: nat, tenant: int)
    requires Inv(s) && t in s.threads && s.threads[t].CSweep? && tenant in s.table
    ensures Steps(s, At(Detach(s, t, tenant), t, COne(s.table[tenant])))
  {
    var pc := COne(s.table[tenant]);
    DetachTable(s, t, tenant);
    DetachOwners(s.threads, s.pending, t, s.table[tenant], pc);
    WriterParts(s, t, pc, s.table - {tenant});
    MoveCloser(s, t, pc, s.closed, s.swept, s.terminal, s.closeDone);
  }

  /** A detached channel is open, and closing it leaves everything else as it is. */
  lemma CloseTable(s: Sys, ch: nat)
    requires TableOk(s.backend, s.table, s.heap) && ChansOk(s.table, s.heap, s.pending) && ch in s.pending
    ensures ch < |s.heap| && s.heap[ch].closes == 0
    ensures var s' := CloseChan(s, ch);
            TableOk(s'.backend, s'.table, s'.heap) && ChansOk(s'.table, s'.heap, s'.pending) && Grows(s.heap, s'.heap)
  {
    var s' := CloseChan(s, ch);
    forall c: nat | c < |s.heap| ensures Registered(c, s'.table, s'.heap) <==> Registered(c, s.table, s.heap) {
    }
    forall i | i in s.table ensures s.table[i] != ch {
      assert Registered(s.table[i], s.table, s.heap);
    }
  }

  lemma CloseAccepted(threads: Threads, heap: Heap, ch: nat)
    requires AcceptedOk(threads, heap) && ch < |heap|
    ensures AcceptedOk(threads, heap[ch := heap[ch].(closes := 1)])
  {
    var heap' := heap[ch := heap[ch].(closes := 1)];
    assert forall c :: 0 <= c < |heap| ==> heap'[c].accepted == heap[c].accepted;
  }

  lemma CloseOwners(threads: Threads, pending: map<nat, nat>, t: nat, ch: nat, pc: Pc)
    requires OwnersOk(threads, pending) && t in threads && WillClose(threads[t], ch)
    requires forall c: nat :: WillClose(pc, c) <==> WillClose(threads[t], c) && c != ch
    ensures OwnersOk(threads[t := pc], pending - {ch})
  {
    var threads' := threads[t := pc];
    forall u, c | u in threads' && WillClose(threads'[u], c) ensures c in pending - {ch} && pending[c] == u {
      assert WillClose(threads[u], c);
    }
    forall c | c in pending - {ch} ensures WillClose(threads'[pending[c]], c) {
      assert WillClose(threads[pending[c]], c);
    }
  }

  /** The parts a closing step must keep besides table, owners and the progress of Close. */
  lemma CloseParts(s: Sys, t: nat, ch: nat, pc: Pc)
    requires Inv(s) && t in s.threads && ch < |s.heap|
    requires (s.threads[t] == UClose(ch) && pc == UDone(true)) || (s.threads[t] == COne(ch) && pc == CSweep)
             || (s.threads[t].CDrain? && pc.CDrain?)
    ensures var th := s.threads[t := pc]; var heap := s.heap[ch := s.heap[ch].(closes := 1)];
            && LocksOk(s.backend, th) && RoutesOk(th, s.table) && GatesOk(s.backend, th, s.closed)
            && HealthOk(th, s.health) && StopOk(th, s.stop) && AcceptedOk(th, heap) && LateOk(th, s.late, s.closed) && SweptOk(th, s.table, s.swept)
  {
    hide LocksOk, TableOk, ChansOk, OwnersOk, RoutesOk, GatesOk, SweptOk, HealthOk, StopOk, AcceptedOk;
    MoveLocks(s, t, pc);
    MoveRoutes(s.threads, s.table, t, pc);
    MoveGates(s.backend, s.threads, s.closed, t, pc);
    MoveHealth(s.threads, s.health, t, pc);
    MoveStop(s.threads, s.stop, t, pc);
    MoveAccepted(s.threads, s.heap, t, pc);
    CloseAccepted(s.threads[t := pc], s.heap, ch);
    MoveLate(s.threads, s.late, s.closed, t, pc);
    MoveSwept(s.threads, s.table, s.swept, t, pc);
  }

  lemma UnregisterCloses(s: Sys, t: nat, ch: nat)
    requires Inv(s) && t in s.threads && s.threads[t] == UClose(ch)
    ensures Steps(s, At(CloseChan(s, ch), t, UDone(true)))
  {
    MoveOutside(s, t, UDone(true));
    assert WillClose(s.threads[t], ch);
    CloseTable(s, ch);
    CloseOwners(s.threads, s.pending, t, ch, UDone(true));
    CloseParts(s, t, ch, UDone(true));
  }

  lemma SweepCloses(s: Sys, t: nat, ch: nat)
    requires Inv(s) && t in s.threads && s.threads[t] == COne(ch)
    ensures Steps(s, At(CloseChan(s, ch), t, CSweep))
  {
    assert WillClose(s.threads[t], ch);
    CloseTable(s, ch);
    CloseOwners(s.threads, s.pending, t, ch, CSweep);
    CloseParts(s, t, ch, CSweep);
    MoveCloser(s, t, CSweep, s.closed, s.swept, s.terminal, s.closeDone);
  }

  lemma DrainCloses(s: Sys, t: nat, ch: nat, rem: set<nat>)
    requires Inv(s) && t in s.threads && s.threads[t] == CDrain(rem) && ch in rem
    ensures Steps(s, At(CloseChan(s, ch), t, CDrain(rem - {ch})))
  {
    assert WillClose(s.threads[t], ch);
    CloseTable(s, ch);
    CloseOwners(s.threads, s.pending, t, ch, CDrain(rem - {ch}));
    CloseParts(s, t, ch, CDrain(rem - {ch}));
    MoveCloser(s, t, CDrain(rem - {ch}), s.closed, s.swept, s.terminal, s.closeDone);
  }

  // ---------------------------------------------------------------- unregistering

  lemma EnterUnregister(s: Sys, t: nat, tenant: int)
    requires Inv(s) && CanMove(s, t, 0) && s.threads[t] == UEnter(tenant) && s.backend.Memory?
    ensures Steps(s, At(s, t, UGate(tenant)))
  {
    hide Inv, Later;
    KnownThread(s, t);
    HarmlessKeeps(s, t, UGate(tenant));
  }

  lemma GateUnregister(s: Sys, t: nat, tenant: int)
    requires Inv(s) && CanMove(s, t, 0)
    requires s.threads[t] == UGate(tenant) || (s.threads[t] == UEnter(tenant) && !s.backend.Memory?)
    ensures Steps(s, At(s, t, Gate(s, tenant, UDone(false), ULock(tenant))))
  {
    hide Inv, Later;
    KnownThread(s, t);
    HarmlessKeeps(s, t, Gate(s, tenant, UDone(false), ULock(tenant)));
  }

  lemma LockUnregister(s: Sys, t: nat, tenant: int)
    requires Inv(s) && CanMove(s, t, 0) && s.threads[t] == ULock(tenant)
    ensures Steps(s, UnregisterMove(s, t))
  {
    hide Inv, Later;
    KnownThread(s, t);
    HarmlessKeeps(s, t, UDetach(tenant));
  }

  lemma NothingToDetach(s: Sys, t: nat, tenant: int)
    requires Inv(s) && t in s.threads && s.threads[t] == UDetach(tenant)
    ensures Steps(s, At(s, t, UDone(false)))
  {
    hide Inv, Later;
    KnownThread(s, t);
    HarmlessKeeps(s, t, UDone(false));
  }

  lemma UnregisterMoveKeeps(s: Sys, t: nat)
    requires Inv(s) && CanMove(s, t, 0) && OfUnregister(s.threads[t])
    ensures Steps(s, UnregisterMove(s, t))
  {
    hide Inv, Later;
    match s.threads[t]
    case UEnter(tenant) =>
      if s.backend.Memory? {
        EnterUnregister(s, t, tenant);
      } else {
        GateUnregister(s, t, tenant);
      }
    case UGate(tenant) => GateUnregister(s, t, tenant);
    case ULock(tenant) => LockUnregister(s, t, tenant);
    case UDetach(tenant) =>
      if tenant in s.table {
        DetachKeeps(s, t, tenant);
      } else {
        NothingToDetach(s, t, tenant);
      }
    case UClose(ch) => UnregisterCloses(s, t, ch);
  }

  // ---------------------------------------------------------------- closing the bus

  lemma ClosePartsWalk(s: Sys, t: nat, pc: Pc)
    requires Inv(s) && t in s.threads && Locked(s, t, pc)
    requires OfClose(s.threads[t]) && OfClose(pc) && !Finished(s.threads[t]) && (pc.CJoin? ==> s.stop)
    requires forall c: nat :: WillClose(pc, c) <==> WillClose(s.threads[t], c)
    ensures var th := s.threads[t := pc];
            && LocksOk(s.backend, th) && OwnersOk(th, s.pending) && RoutesOk(th, s.table)
            && GatesOk(s.backend, th, s.closed) && SweptOk(th, s.table, s.swept) && HealthOk(th, s.health) && StopOk(th, s.stop)
            && AcceptedOk(th, s.heap) && LateOk(th, s.late, s.closed)
  {
    hide LocksOk, TableOk, ChansOk, OwnersOk, RoutesOk, GatesOk, SweptOk, HealthOk, StopOk, AcceptedOk, LateOk;
    MoveLocks(s, t, pc);
    MoveOwners(s.threads, s.pending, t, pc);
    MoveRoutes(s.threads, s.table, t, pc);
    MoveGates(s.backend, s.threads, s.closed, t, pc);
    MoveSwept(s.threads, s.table, s.swept, t, pc);
    MoveHealth(s.threads, s.health, t, pc);
    MoveStop(s.threads, s.stop, t, pc);
    MoveAccepted(s.threads, s.heap, t, pc);
    MoveLate(s.threads, s.late, s.closed, t, pc);
  }

  /** Entering Close: the first caller wins, every other one waits. */
  lemma WinClose(s: Sys, t: nat)
    requires Inv(s) && t in s.threads && s.threads[t] == CEnter && s.closer.None?
    ensures Steps(s, At(s.(closer := Some(t)), t, CStart))
  {
    hide LocksOk, TableOk, ChansOk, OwnersOk, RoutesOk, GatesOk, SweptOk, HealthOk, StopOk, AcceptedOk, LateOk;
    ClosePartsWalk(s, t, CStart);
  }

  lemma JoinClose(s: Sys, t: nat)
    requires Inv(s) && t in s.threads && s.threads[t] == CEnter && s.closer.Some?
    ensures Steps(s, At(s, t, CWait))
  {
    hide LocksOk, TableOk, ChansOk, OwnersOk, RoutesOk, GatesOk, SweptOk, HealthOk, StopOk, AcceptedOk, LateOk;
    ClosePartsWalk(s, t, CWait);
    MoveOutside(s, t, CWait);
  }

  /** Freezing admission: in the memory bus the write lock guarantees that no registration is past
      its gate. */
  lemma FreezeKeeps(s: Sys, t: nat, pc: Pc)
    requires Inv(s) && t in s.threads && s.threads[t] == CFreeze
    requires pc == if s.backend.Memory? then CLock else CMu
    ensures Steps(s, At(s.(closed := true), t, pc))
  {
    hide LocksOk, TableOk, ChansOk, OwnersOk, RoutesOk, GatesOk, SweptOk, HealthOk, StopOk, AcceptedOk;
    CloserProgress(s, t);
    ClosePartsWalk(s, t, pc);
    MoveCloser(s, t, pc, true, s.swept, s.terminal, s.closeDone);
    FreezeGates(s, t, pc);
  }

  lemma FreezeGates(s: Sys, t: nat, pc: Pc)
    requires LocksOk(s.backend, s.threads) && GatesOk(s.backend, s.threads, s.closed)
    requires t in s.threads && s.threads[t] == CFreeze && (pc.CLock? || pc.CMu?)
    ensures GatesOk(s.backend, s.threads[t := pc], true)
  {
  }

  /** The steps of the teardown that write nothing but its own progress. */
  lemma TeardownWalk(s: Sys, t: nat, pc: Pc)
    requires Inv(s) && t in s.threads && InClose(s.threads[t]) && InClose(pc) && Locked(s, t, pc)
    requires OfClose(s.threads[t]) && OfClose(pc) && !Finished(s.threads[t]) && (pc.CJoin? ==> s.stop)
    requires forall c: nat :: WillClose(pc, c) <==> WillClose(s.threads[t], c)
    requires Progressed(s.backend, pc, s.closed, s.swept, s.terminal, s.closeDone)
    ensures Steps(s, At(s, t, pc))
  {
    hide LocksOk, TableOk, ChansOk, OwnersOk, RoutesOk, GatesOk, SweptOk, HealthOk, StopOk, AcceptedOk, LateOk;
    ClosePartsWalk(s, t, pc);
    MoveCloser(s, t, pc, s.closed, s.swept, s.terminal, s.closeDone);
  }

  lemma CloserProgress(s: Sys, t: nat)
    requires Inv(s) && t in s.threads && InClose(s.threads[t])
    ensures Progressed(s.backend, s.threads[t], s.closed, s.swept, s.terminal, s.closeDone)
  {
  }

  /** Emptying the table in one stroke: every registered channel becomes the closer's to close. */
  lemma DetachAllTable(s: Sys, t: nat)
    requires TableOk(s.backend, s.table, s.heap) && ChansOk(s.table, s.heap, s.pending)
    ensures var s' := DetachAll(s, t);
            TableOk(s'.backend, s'.table, s'.heap) && ChansOk(s'.table, s'.heap, s'.pending)
    ensures s.pending.Keys !! Chans(s.table)
  {
    var s' := DetachAll(s, t);
    forall c: nat | c < |s.heap| ensures Registered(c, s.table, s.heap) <==> c in Chans(s.table) {
      if c in Chans(s.table) {
        var i :| i in s.table && s.table[i] == c;
      }
    }
  }

  lemma DetachAllOwners(threads: Threads, pending: map<nat, nat>, t: nat, chans: set<nat>)
    requires OwnersOk(threads, pending) && t in threads && !Owns(threads[t]) && pending.Keys !! chans
    ensures OwnersOk(threads[t := CStop(chans)], pending + (map ch | ch in chans :: t))
  {
    var pending' := pending + (map ch | ch in chans :: t);
    forall c | c in pending' ensures WillClose(threads[t := CStop(chans)][pending'[c]], c) {
      if c !in chans {
        assert WillClose(threads[pending[c]], c);
      }
    }
  }

  lemma DetachAllKeeps(s: Sys, t: nat)
    requires Inv(s) && t in s.threads && s.threads[t] == CDetach
    ensures Steps(s, At(DetachAll(s, t), t, CStop(Chans(s.table))))
  {
    var pc := CStop(Chans(s.table));
    CloserProgress(s, t);
    DetachAllTable(s, t);
    DetachAllOwners(s.threads, s.pending, t, Chans(s.table));
    DetachAllParts(s, t, pc);
    MoveCloser(s, t, pc, s.closed, true, s.terminal, s.closeDone);
  }

  lemma DetachAllParts(s: Sys, t: nat, pc: Pc)
    requires Inv(s) && t in s.threads && s.threads[t] == CDetach && pc.CStop?
    ensures var th := s.threads[t := pc];
            && LocksOk(s.backend, th) && RoutesOk(th, map[]) && GatesOk(s.backend, th, s.closed)
            && HealthOk(th, s.health) && StopOk(th, s.stop) && AcceptedOk(th, s.heap) && LateOk(th, s.late, s.closed)
            && SweptOk(th, map[], true)
  {
    MoveLocks(s, t, pc);
    WriterAlone(s.backend, s.threads, t);
    MoveGates(s.backend, s.threads, s.closed, t, pc);
    MoveHealth(s.threads, s.health, t, pc);
    MoveStop(s.threads, s.stop, t, pc);
    MoveAccepted(s.threads, s.heap, t, pc);
    MoveLate(s.threads, s.late, s.closed, t, pc);
  }

  lemma SweptAllKeeps(s: Sys, t: nat)
    requires Inv(s) && t in s.threads && s.threads[t] == CSweep && s.table == map[]
    ensures Steps(s, At(s.(swept := true), t, CStore))
  {
    hide LocksOk, TableOk, ChansOk, OwnersOk, RoutesOk, GatesOk, HealthOk, StopOk, AcceptedOk, LateOk;
    CloserProgress(s, t);
    WriterAlone(s.backend, s.threads, t);
    ClosePartsWalk(s, t, CStore);
    MoveCloser(s, t, CStore, s.closed, true, s.terminal, s.closeDone);
  }

  lemma StoreKeeps(s: Sys, t: nat, err: int)
    requires Inv(s) && t in s.threads && s.threads[t] == CStore
    ensures Steps(s, At(s.(terminal := Some(err)), t, CSignal))
  {
    hide LocksOk, TableOk, ChansOk, OwnersOk, RoutesOk, GatesOk, SweptOk, HealthOk, StopOk, AcceptedOk, LateOk;
    CloserProgress(s, t);
    ClosePartsWalk(s, t, CSignal);
    MoveCloser(s, t, CSignal, s.closed, s.swept, Some(err), s.closeDone);
  }

  lemma SignalKeeps(s: Sys, t: nat)
    requires Inv(s) && t in s.threads && s.threads[t] == CSignal
    ensures Steps(s, At(s.(closeDone := true), t, CWait))
  {
    hide LocksOk, TableOk, ChansOk, OwnersOk, RoutesOk, GatesOk, SweptOk, HealthOk, StopOk, AcceptedOk, LateOk;
    CloserProgress(s, t);
    ClosePartsWalk(s, t, CWait);
    MoveCloser(s, t, CWait, s.closed, s.swept, s.terminal, true);
  }

  lemma ReturnKeeps(s: Sys, t: nat, err: int)
    requires Inv(s) && t in s.threads && s.threads[t] == CWait && s.closeDone && s.terminal == Some(err)
    ensures Steps(s, At(s, t, CDone(err)))
  {
    hide LocksOk, TableOk, ChansOk, OwnersOk, RoutesOk, GatesOk, SweptOk, HealthOk, StopOk, AcceptedOk, LateOk;
    ClosePartsWalk(s, t, CDone(err));
    MoveOutside(s, t, CDone(err));
  }

  lemma DoneHasError(s: Sys)
    requires Inv(s) && s.closeDone
    ensures s.terminal.Some? && s.swept && s.closed
  {
  }

  lemma StartClosing(s: Sys, t: nat)
    requires Inv(s) && CanMove(s, t, 0) && s.threads[t] == CStart
    ensures Steps(s, At(s, t, CFreeze))
  {
    hide Inv, Later;
    CloserProgress(s, t);
    TeardownWalk(s, t, CFreeze);
  }

  lemma LockClosing(s: Sys, t: nat)
    requires Inv(s) && CanMove(s, t, 0) && s.threads[t] == CLock
    ensures Steps(s, At(s, t, if s.backend.Memory? then CDetach else CSweep))
  {
    hide Inv, Later;
    CloserProgress(s, t);
    TeardownWalk(s, t, if s.backend.Memory? then CDetach else CSweep);
  }

  lemma JoinKeeps(s: Sys, t: nat, rem: set<nat>)
    requires Inv(s) && t in s.threads && s.threads[t] == CJoin(rem)
    ensures Steps(s, At(s, t, if s.backend.Memory? then CDrain(rem) else CLock))
  {
    hide Inv, Later;
    CloserProgress(s, t);
    TeardownWalk(s, t, if s.backend.Memory? then CDrain(rem) else CLock);
  }

  /** The Kafka and NATS bus take `mu` and keep it until the error is stored. */
  lemma MutexKeeps(s: Sys, t: nat)
    requires Inv(s) && CanMove(s, t, 0) && s.threads[t] == CMu
    ensures Steps(s, At(s, t, CStop({})))
  {
    hide Inv, Later;
    CloserProgress(s, t);
    TeardownWalk(s, t, CStop({}));
  }

  lemma DrainedKeeps(s: Sys, t: nat)
    requires Inv(s) && t in s.threads && s.threads[t] == CDrain({})
    ensures Steps(s, At(s, t, CStore))
  {
    hide Inv, Later;
    CloserProgress(s, t);
    TeardownWalk(s, t, CStore);
  }

  predicate TearsDown(pc: Pc) {
    pc.CDetach? || pc.CSweep? || pc.COne? || pc.CStop? || pc.CJoin? || pc.CDrain?
  }

  lemma SweepStep(s: Sys, t: nat, k: int)
    requires Inv(s) && CanMove(s, t, k) && s.threads[t] == CSweep
    ensures Steps(s, CloseMove(s, t, k))
  {
    hide Inv, Later;
    if s.table == map[] {
      SweptAllKeeps(s, t);
    } else {
      SweepKeeps(s, t, k);
    }
  }

  lemma TearDownKeeps(s: Sys, t: nat, k: int)
    requires Inv(s) && CanMove(s, t, k) && TearsDown(s.threads[t])
    ensures Steps(s, CloseMove(s, t, k))
  {
    hide Inv, Later;
    match s.threads[t]
    case CDetach => DetachAllKeeps(s, t);
    case CSweep => SweepStep(s, t, k);
    case COne(ch) => SweepCloses(s, t, ch);
    case CStop(rem) => StopKeeps(s, t, rem);
    case CJoin(rem) => JoinKeeps(s, t, rem);
    case CDrain(rem) =>
      if rem == {} {
        DrainedKeeps(s, t);
      } else {
        DrainCloses(s, t, k, rem);
      }
  }

  lemma EndKeeps(s: Sys, t: nat, k: int)
    requires Inv(s) && CanMove(s, t, k)
    requires s.threads[t].CStore? || s.threads[t].CSignal? || s.threads[t].CWait?
    ensures Steps(s, CloseMove(s, t, k))
  {
    hide Inv, Later;
    var pc := s.threads[t];
    if pc.CStore? {
      StoreKeeps(s, t, k);
    } else if pc.CSignal? {
      SignalKeeps(s, t);
    } else {
      DoneHasError(s);
      ReturnKeeps(s, t, s.terminal.value);
    }
  }

  lemma EnterClose(s: Sys, t: nat)
    requires Inv(s) && CanMove(s, t, 0) && s.threads[t] == CEnter
    ensures Steps(s, CloseMove(s, t, 0))
  {
    hide Inv, Later;
    if s.closer.None? {
      WinClose(s, t);
    } else {
      JoinClose(s, t);
    }
  }

  lemma CloseMoveKeeps(s: Sys, t: nat, k: int)
    requires Inv(s) && CanMove(s, t, k) && OfClose(s.threads[t])
    ensures Steps(s, CloseMove(s, t, k))
  {
    hide Inv, Later;
    var pc := s.threads[t];
    if TearsDown(pc) {
      TearDownKeeps(s, t, k);
    } else if pc.CStore? || pc.CSignal? || pc.CWait? {
      EndKeeps(s, t, k);
    } else {
      BeginCloseKeeps(s, t);
    }
  }

  predicate BeginsClose(pc: Pc) {
    pc.CEnter? || pc.CStart? || pc.CFreeze? || pc.CMu? || pc.CLock?
  }

  lemma BeginCloseKeeps(s: Sys, t: nat)
    requires Inv(s) && CanMove(s, t, 0) && BeginsClose(s.threads[t])
    ensures Steps(s, CloseMove(s, t, 0))
  {
    hide Inv, Later;
    var pc := s.threads[t];
    if pc.CEnter? {
      EnterClose(s, t);
    } else if pc.CStart? {
      StartClosing(s, t);
    } else if pc.CFreeze? {
      FreezeKeeps(s, t, if s.backend.Memory? then CLock else CMu);
    } else if pc.CMu? {
      MutexKeeps(s, t);
    } else {
      LockClosing(s, t);
    }
  }

  lemma StopKeeps(s: Sys, t: nat, rem: set<nat>)
    requires Inv(s) && t in s.threads && s.threads[t] == CStop(rem)
    ensures Steps(s, At(s.(stop := true), t, CJoin(rem)))
  {
    hide LocksOk, TableOk, ChansOk, OwnersOk, RoutesOk, GatesOk, SweptOk, HealthOk, AcceptedOk, LateOk;
    var s1 := s.(stop := true);
    CloserProgress(s, t);
    assert Inv(s1);
    TeardownWalk(s1, t, CJoin(rem));
  }

  // ---------------------------------------------------------------- every step, every run

  /** Background loops and other operations touch nothing of the registry. */
  lemma BesideIsHarmless(s: Sys, t: nat, pc: Pc)
    requires Known(s, t) && Locked(s, t, pc) && !Finished(s.threads[t]) && !pc.HCall?
    requires (OfHealth(s.threads[t]) && OfHealth(pc)) || (OfOther(s.threads[t]) && OfOther(pc))
             || (s.threads[t].Watch? && pc.Watch?)
    ensures Harmless(s, t, pc) && Outside(pc) && Outside(s.threads[t])
  {
    hide Locked;
  }

  lemma HealthStep(s: Sys, t: nat, pc: Pc)
    requires Inv(s) && t in s.threads && OfHealth(s.threads[t]) && OfHealth(pc) && !Finished(s.threads[t])
    requires Locked(s, t, pc) && !pc.HCall?
    ensures Steps(s, At(s, t, pc))
  {
    hide Inv, Later;
    KnownThread(s, t);
    BesideIsHarmless(s, t, pc);
    HarmlessKeeps(s, t, pc);
  }

  lemma HealthMoveKeeps(s: Sys, t: nat, k: int)
    requires Inv(s) && CanMove(s, t, k) && OfHealth(s.threads[t])
    ensures Steps(s, HealthMove(s, t, k))
  {
    hide Inv, Later;
    match s.threads[t]
    case HIdle => HealthStep(s, t, if k == 0 then HDone else HWant);
    case HWant => HealthStep(s, t, HPublish);
    case HPublish => HealthStep(s, t, HIdle);
    case HCall(u) => HealthStep(s, t, AfterCall(s, u));
  }

  lemma OtherStep(s: Sys, t: nat, pc: Pc)
    requires Inv(s) && t in s.threads && OfOther(s.threads[t]) && OfOther(pc) && !Finished(s.threads[t])
    requires Locked(s, t, pc)
    ensures Steps(s, At(s, t, pc))
  {
    hide Inv, Later;
    KnownThread(s, t);
    BesideIsHarmless(s, t, pc);
    HarmlessKeeps(s, t, pc);
  }

  /** The fields of the health loop are not part of this invariant. */
  lemma WatchFieldsKeep(s: Sys, monitor: Option<nat>, canceled: set<nat>, subscribed: bool)
    requires Inv(s)
    ensures Steps(s, s.(monitor := monitor, canceled := canceled, subscribed := subscribed))
  {
  }

  lemma OtherMoveKeeps(s: Sys, t: nat, k: int)
    requires Inv(s) && CanMove(s, t, k) && OfOther(s.threads[t])
    ensures Steps(s, OtherMove(s, t, k))
  {
    hide Inv, Later;
    if s.threads[t].OWant? {
      OtherStep(s, t, OHold(s.threads[t].write));
    } else {
      var s1 := s.(subscribed := s.subscribed || (k == 1 && !s.closed));
      WatchFieldsKeep(s, s.monitor, s.canceled, s1.subscribed);
      OtherStep(s1, t, ODone);
      LaterTrans(s, s1, At(s1, t, ODone));
    }
  }

  lemma WatchStep(s: Sys, t: nat, step: WatchPc)
    requires Inv(s) && t in s.threads && s.threads[t].Watch? && !Finished(s.threads[t])
    requires WatchHoldsMu(step) && !s.backend.Memory? ==> WatchHoldsMu(s.threads[t].step) || MuWriteFree(s)
    ensures Steps(s, At(s, t, Watch(step)))
  {
    hide Inv, Later;
    KnownThread(s, t);
    BesideIsHarmless(s, t, Watch(step));
    HarmlessKeeps(s, t, Watch(step));
  }

  lemma LoopMoveKeeps(s: Sys, t: nat, k: int)
    requires Inv(s) && CanMove(s, t, k) && s.threads[t].Watch? && OfLoop(s.threads[t].step)
    ensures Steps(s, LoopMove(s, t, s.threads[t].step, k))
  {
    hide Inv, Later;
    WatchStep(s, t, AfterLoop(s.backend, s.closed, s.subscribed, s.threads[t].step, k));
  }

  lemma StopMoveKeeps(s: Sys, t: nat, k: int)
    requires Inv(s) && CanMove(s, t, k) && s.threads[t].Watch? && !OfLoop(s.threads[t].step)
    ensures Steps(s, StopMove(s, t, s.threads[t].step, k))
  {
    hide Inv, Later;
    var step := s.threads[t].step;
    if step.JStart? {
      NewLoopKeeps(s, t, k);
    } else {
      StopStep(s, t, k);
    }
  }

  /** Taking `mu`, cancelling the loop that runs and beginning to join it. */
  lemma CancelStep(s: Sys, t: nat, l: nat, restart: bool)
    requires Inv(s) && t in s.threads && s.threads[t] == Watch(JWant(restart)) && MuWriteFree(s)
    ensures Steps(s, At(s.(canceled := s.canceled + {l}), t, Watch(JJoin(l, restart))))
  {
    hide Inv, Later;
    var s1 := s.(canceled := s.canceled + {l});
    WatchFieldsKeep(s, s.monitor, s1.canceled, s.subscribed);
    WatchStep(s1, t, JJoin(l, restart));
    LaterTrans(s, s1, At(s1, t, Watch(JJoin(l, restart))));
  }

  lemma JoinedStep(s: Sys, t: nat)
    requires Inv(s) && t in s.threads && s.threads[t].Watch? && s.threads[t].step.JJoin?
    ensures Steps(s, At(s.(monitor := None), t, Watch(JDone)))
  {
    hide Inv, Later;
    var s1 := s.(monitor := None);
    WatchFieldsKeep(s, None, s.canceled, s.subscribed);
    WatchStep(s1, t, JDone);
    LaterTrans(s, s1, At(s1, t, Watch(JDone)));
  }

  lemma StopStep(s: Sys, t: nat, k: int)
    requires Inv(s) && CanMove(s, t, k) && s.threads[t].Watch? && !OfLoop(s.threads[t].step) && !s.threads[t].step.JStart?
    ensures Steps(s, StopMove(s, t, s.threads[t].step, k))
  {
    hide Inv, Later;
    var step := s.threads[t].step;
    if step.JWant? && s.monitor.Some? {
      CancelStep(s, t, s.monitor.value, step.restart);
    } else if step.JJoin? && !step.restart {
      JoinedStep(s, t);
    } else {
      WatchStep(s, t, if step.restart then JStart else JDone);
    }
  }

  /** A new health loop is a new thread. */
  lemma NewLoopKeeps(s: Sys, t: nat, k: nat)
    requires Inv(s) && t in s.threads && s.threads[t] == Watch(JStart) && k !in s.threads && k !in s.health
    ensures Steps(s, At(At(s.(monitor := Some(k)), k, Watch(MIdle)), t, Watch(JDone)))
  {
    hide Inv, Later;
    var s1 := s.(monitor := Some(k));
    var s2 := At(s1, k, Watch(MIdle));
    WatchFieldsKeep(s, Some(k), s.canceled, s.subscribed);
    NewThreadKeeps(s1, k, Watch(MIdle), s.late);
    LaterTrans(s, s1, s2);
    WatchStep(s2, t, JDone);
    LaterTrans(s, s2, At(s2, t, Watch(JDone)));
  }

  lemma WatchMoveKeeps(s: Sys, t: nat, k: int)
    requires Inv(s) && CanMove(s, t, k) && s.threads[t].Watch?
    ensures Steps(s, WatchMove(s, t, k))
  {
    hide Inv, Later;
    if OfLoop(s.threads[t].step) {
      LoopMoveKeeps(s, t, k);
    } else {
      StopMoveKeeps(s, t, k);
    }
  }

  /** The pcs a new thread starts at. */
  predicate Fresh(pc: Pc) {
    Entry(pc) || pc == Watch(MIdle)
  }

  lemma NewThreadLocks(b: Backend, threads: Threads, t: nat, pc: Pc)
    requires LocksOk(b, threads) && t !in threads && Fresh(pc)
    ensures LocksOk(b, threads[t := pc])
  {
  }

  lemma NewThreadOwners(threads: Threads, pending: map<nat, nat>, t: nat, pc: Pc)
    requires OwnersOk(threads, pending) && t !in threads && Fresh(pc)
    ensures OwnersOk(threads[t := pc], pending)
  {
    var threads' := threads[t := pc];
    forall u, c | u in threads' && WillClose(threads'[u], c) ensures c in pending && pending[c] == u {
      assert WillClose(threads[u], c);
    }
    forall c | c in pending ensures WillClose(threads'[pending[c]], c) {
      assert WillClose(threads[pending[c]], c);
    }
  }

  lemma NewThreadHealth(threads: Threads, health: set<nat>, t: nat, pc: Pc)
    requires HealthOk(threads, health) && t !in threads && Fresh(pc)
    ensures HealthOk(threads[t := pc], health)
  {
    var threads' := threads[t := pc];
    forall u | u in threads' && threads'[u].HCall? ensures RunsSend(threads', threads'[u].call) {
      assert RunsSend(threads, threads[u].call);
    }
  }

  lemma NewThreadCloser(s: Sys, t: nat, pc: Pc)
    requires CloserOk(s.backend, s.threads, s.closer, s.closed, s.swept, s.terminal, s.closeDone)
    requires t !in s.threads && Fresh(pc)
    ensures CloserOk(s.backend, s.threads[t := pc], s.closer, s.closed, s.swept, s.terminal, s.closeDone)
  {
  }

  lemma NewThreadLate(threads: Threads, late: set<nat>, late': set<nat>, closed: bool, t: nat, pc: Pc)
    requires LateOk(threads, late, closed) && t !in threads && Fresh(pc)
    requires late' == late || (closed && late' == late + {t})
    ensures LateOk(threads[t := pc], late', closed)
  {
  }

  lemma NewThreadKeeps(s: Sys, t: nat, pc: Pc, late: set<nat>)
    requires Inv(s) && t !in s.threads && t !in s.health && Fresh(pc)
    requires late == s.late || (s.closed && late == s.late + {t})
    ensures Steps(s, At(s.(late := late), t, pc))
  {
    NewThreadLocks(s.backend, s.threads, t, pc);
    NewThreadOwners(s.threads, s.pending, t, pc);
    NewThreadHealth(s.threads, s.health, t, pc);
    MoveStop(s.threads, s.stop, t, pc);
    NewThreadCloser(s, t, pc);
    NewThreadLate(s.threads, s.late, late, s.closed, t, pc);
    MoveRoutes(s.threads, s.table, t, pc);
    MoveGates(s.backend, s.threads, s.closed, t, pc);
    MoveSwept(s.threads, s.table, s.swept, t, pc);
    MoveAccepted(s.threads, s.heap, t, pc);
  }

  lemma StartKeeps(s: Sys, t: nat, pc: Pc)
    requires Inv(s) && t !in s.threads && t !in s.health && Entry(pc)
    ensures Steps(s, Begin(s, t, pc))
  {
    NewThreadKeeps(s, t, pc, if s.closed then s.late + {t} else s.late);
  }

  lemma SpawnKeeps(s: Sys, t: nat, u: nat, tenant: int)
    requires Inv(s) && Enabled(s, Spawn(t, u, tenant))
    ensures Steps(s, Fire(s, Spawn(t, u, tenant)))
  {
    hide Inv, Later;
    var s1 := Begin(s, u, SEnter(tenant));
    StartKeeps(s, u, SEnter(tenant));
    CallKeeps(s1, t, u);
    LaterTrans(s, s1, At(s1, t, HCall(u)));
  }

  lemma CallKeeps(s: Sys, t: nat, u: nat)
    requires Inv(s) && t in s.threads && s.threads[t] == HIdle && RunsSend(s.threads, u)
    ensures Steps(s, At(s, t, HCall(u)))
  {
    hide Inv, Later, HealthOk;
    KnownThread(s, t);
    HarmlessKeeps(s, t, HCall(u));
  }

  /** Taking a result changes only `taken`. */
  lemma RecvTable(s: Sys, ch: nat)
    requires Enabled(s, Recv(ch)) && TableOk(s.backend, s.table, s.heap) && ChansOk(s.table, s.heap, s.pending)
    ensures var s' := Fire(s, Recv(ch));
            TableOk(s'.backend, s'.table, s'.heap) && ChansOk(s'.table, s'.heap, s'.pending) && Grows(s.heap, s'.heap)
  {
    var s' := Fire(s, Recv(ch));
    forall c: nat | c < |s.heap| ensures Registered(c, s'.table, s'.heap) == Registered(c, s.table, s.heap) {
    }
  }

  lemma RecvAccepted(s: Sys, ch: nat)
    requires Enabled(s, Recv(ch)) && AcceptedOk(s.threads, s.heap)
    ensures AcceptedOk(s.threads, Fire(s, Recv(ch)).heap)
  {
    var heap := Fire(s, Recv(ch)).heap;
    assert forall c :: 0 <= c < |s.heap| ==> heap[c].accepted == s.heap[c].accepted;
  }

  lemma RecvKeeps(s: Sys, ch: nat)
    requires Inv(s) && Enabled(s, Recv(ch))
    ensures Steps(s, Fire(s, Recv(ch)))
  {
    hide LocksOk, TableOk, ChansOk, OwnersOk, RoutesOk, GatesOk, CloserOk, SweptOk, HealthOk, StopOk, AcceptedOk, LateOk, Grows;
    RecvTable(s, ch);
    RecvAccepted(s, ch);
  }

  lemma FireKeeps(s: Sys, e: Event)
    requires Inv(s) && Enabled(s, e)
    ensures Steps(s, Fire(s, e))
  {
    hide Inv, Later;
    match e
    case Start(t, pc) => StartKeeps(s, t, pc);
    case Spawn(t, u, tenant) => SpawnKeeps(s, t, u, tenant);
    case Recv(ch) => RecvKeeps(s, ch);
    case Cancel(t) => WatchFieldsKeep(s, s.monitor, s.canceled + {t}, s.subscribed);
    case Move(t, k) =>
      var pc := s.threads[t];
      if OfSend(pc) {
        SendMoveKeeps(s, t);
      } else if OfRegister(pc) {
        RegisterMoveKeeps(s, t);
      } else if OfUnregister(pc) {
        UnregisterMoveKeeps(s, t);
      } else if OfHealth(pc) {
        HealthMoveKeeps(s, t, k);
      } else if OfOther(pc) {
        OtherMoveKeeps(s, t, k);
      } else if pc.Watch? {
        WatchMoveKeeps(s, t, k);
      } else {
        CloseMoveKeeps(s, t, k);
      }
  }

  lemma LaterTrans(s: Sys, s': Sys, s'': Sys)
    requires Later(s, s') && Later(s', s'')
    ensures Later(s, s'')
  {
  }

  /** Every reachable state satisfies the invariant, and every run only grows. */
  lemma {:induction false} ExecKeeps(s: Sys, schedule: seq<Event>)
    requires Inv(s)
    ensures Steps(s, Exec(s, schedule))
    decreases |schedule|
  {
    hide Inv;
    if schedule != [] {
      if Enabled(s, schedule[0]) {
        FireKeeps(s, schedule[0]);
      }
      ExecKeeps(Apply(s, schedule[0]), schedule[1..]);
      LaterTrans(s, Apply(s, schedule[0]), Exec(s, schedule));
    }
  }
}

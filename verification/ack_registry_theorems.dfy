/** Properties of every run of the ACK registry, for all three backends. */
module AckRegistryTheorems {
  import opened Wrappers
  import opened AckRegistryModel
  import opened AckRegistryInvariants

  ghost function Reached(b: Backend, hasGlobal: bool, capacity: nat, health: set<nat>, schedule: seq<Event>): Sys {
    Exec(Init(b, hasGlobal, capacity, health), schedule)
  }

  lemma {:induction false} ReachedInv(b: Backend, hasGlobal: bool, capacity: nat, health: set<nat>, schedule: seq<Event>)
    ensures Inv(Reached(b, hasGlobal, capacity, health, schedule))
  {
    InitInv(b, hasGlobal, capacity, health);
    ExecKeeps(Init(b, hasGlobal, capacity, health), schedule);
  }

  /** In no interleaving of senders, registrations, unregistrations and Close does anyone send on a
      closed channel or close one twice. */
  lemma {:induction false} NobodyPanics(b: Backend, hasGlobal: bool, capacity: nat, health: set<nat>, schedule: seq<Event>)
    ensures !Reached(b, hasGlobal, capacity, health, schedule).panicked
  {
    ReachedInv(b, hasGlobal, capacity, health, schedule);
  }

  // ---------------------------------------------------------------- Close leaks nothing

  /** Everything Close promises: the registry is empty and every tenant channel ever made has been
      closed exactly once. */
  ghost predicate AllClosedOnce(s: Sys) {
    s.closed && s.table == map[] && forall c :: 0 < c < |s.heap| ==> s.heap[c].closes == 1
  }

  lemma NobodyInClose(s: Sys)
    requires Inv(s) && s.closeDone
    ensures forall v :: v in s.threads ==> !InClose(s.threads[v])
  {
  }

  lemma OwnersAreInside(s: Sys)
    requires Inv(s) && s.swept && (forall v :: v in s.threads ==> !InClose(s.threads[v]))
    ensures forall v :: v in s.threads ==> !Owns(s.threads[v])
  {
  }

  /** After Close no channel is detached but open: whoever detached it has closed it. */
  lemma NothingPending(threads: map<nat, Pc>, pending: map<nat, nat>)
    requires OwnersOk(threads, pending) && (forall v :: v in threads ==> !Owns(threads[v]))
    ensures pending == map[]
  {
    forall c: nat ensures c !in pending {
      PendingHasOwner(threads, pending, c);
    }
  }

  lemma PendingHasOwner(threads: map<nat, Pc>, pending: map<nat, nat>, c: nat)
    requires OwnersOk(threads, pending)
    ensures c in pending ==> exists v :: v in threads && Owns(threads[v])
  {
    if c in pending {
      assert pending[c] in threads;
    }
  }

  lemma ClosedMeansClosed(s: Sys)
    requires Inv(s) && s.closeDone
    ensures AllClosedOnce(s)
  {
    DoneHasError(s);
    NobodyInClose(s);
    OwnersAreInside(s);
    NothingPending(s.threads, s.pending);
  }

  /** Once Close has finished, every tenant channel ever created has been closed exactly once and the
      registry is empty, and both stay so whatever runs later: no registration racing the freeze
      leaves a channel behind, and none is made afterwards. */
  lemma {:induction false} CloseLeaksNothing(b: Backend, hasGlobal: bool, capacity: nat, health: set<nat>,
                                             before: seq<Event>, later: seq<Event>)
    requires Reached(b, hasGlobal, capacity, health, before).closeDone
    ensures var s := Reached(b, hasGlobal, capacity, health, before);
            AllClosedOnce(s) && AllClosedOnce(Exec(s, later)) && |Exec(s, later).heap| == |s.heap|
  {
    var s := Reached(b, hasGlobal, capacity, health, before);
    ReachedInv(b, hasGlobal, capacity, health, before);
    DoneHasError(s);
    ClosedMeansClosed(s);
    ExecKeeps(s, later);
    ClosedMeansClosed(Exec(s, later));
  }

  // ---------------------------------------------------------------- one teardown, one error

  /** However many calls of Close run, one of them does the teardown; every call that returns, now or
      later, returns the one stored error, and only after the teardown has finished. */
  lemma {:induction false} CloseReturnsOneError(b: Backend, hasGlobal: bool, capacity: nat, health: set<nat>,
                                                before: seq<Event>, later: seq<Event>, t: nat, u: nat)
    requires var s := Reached(b, hasGlobal, capacity, health, before); t in s.threads && s.threads[t].CDone?
    requires var s' := Exec(Reached(b, hasGlobal, capacity, health, before), later); u in s'.threads && s'.threads[u].CDone?
    ensures var s := Reached(b, hasGlobal, capacity, health, before); var s' := Exec(s, later);
            && s'.threads[u].err == s.threads[t].err
            && s.closeDone && s'.closer == s.closer
            && (forall v :: v in s'.threads ==> !InClose(s'.threads[v]))
  {
    var s := Reached(b, hasGlobal, capacity, health, before);
    ReachedInv(b, hasGlobal, capacity, health, before);
    ExecKeeps(s, later);
    ReturnedError(s, t);
    ReturnedError(Exec(s, later), u);
    NobodyInClose(Exec(s, later));
  }

  lemma ReturnedError(s: Sys, t: nat)
    requires Inv(s) && t in s.threads && s.threads[t].CDone?
    ensures s.closeDone && s.closer.Some? && s.terminal == Some(s.threads[t].err)
  {
  }

  // ---------------------------------------------------------------- ACK conservation

  /** The results a listener has not taken yet, in acceptance order. */
  function Buffer(c: Chan): seq<nat>
    requires c.taken <= |c.accepted|
  {
    c.accepted[c.taken..]
  }

  /** Call t offered a result of this tenant and it is at place i of channel c. */
  ghost predicate Holds(s: Sys, c: nat, i: nat, t: nat) {
    c < |s.heap| && i < |s.heap[c].accepted| && s.heap[c].accepted[i] == t
  }

  /** Every offered result is queued exactly once, on the channel of its own tenant (the global one
      exactly for tenant 0), or it was rejected and is nowhere. No channel is ever over capacity. */
  ghost predicate Conserved(s: Sys) {
    && (forall t :: t in s.threads && s.threads[t].SDone? && s.threads[t].outcome.Accepted? ==>
          var o := s.threads[t].outcome;
          && Holds(s, o.ch, o.pos, t)
          && s.heap[o.ch].tenant == s.threads[t].tenant && (o.ch == 0 <==> s.threads[t].tenant == 0)
          && (forall c, i :: Holds(s, c, i, t) ==> c == o.ch && i == o.pos))
    && (forall t, c, i :: Holds(s, c, i, t) ==>
          t in s.threads && s.threads[t].SDone? && s.threads[t].outcome == Accepted(c, i))
    && (forall c :: 0 <= c < |s.heap| ==>
          s.heap[c].taken <= |s.heap[c].accepted| && |Buffer(s.heap[c])| <= s.heap[c].capacity)
  }

  lemma InvConserves(s: Sys)
    requires TableOk(s.backend, s.table, s.heap) && ChansOk(s.table, s.heap, s.pending) && AcceptedOk(s.threads, s.heap)
    ensures Conserved(s)
  {
  }

  lemma {:induction false} AcksAreConserved(b: Backend, hasGlobal: bool, capacity: nat, health: set<nat>, schedule: seq<Event>)
    ensures Conserved(Reached(b, hasGlobal, capacity, health, schedule))
  {
    ReachedInv(b, hasGlobal, capacity, health, schedule);
    InvConserves(Reached(b, hasGlobal, capacity, health, schedule));
  }

  /** Each channel hands its results out in acceptance order: from any state to any later one the
      accepted results are only appended to, and the listener only moves forward over them. */
  lemma {:induction false} ListenersReadInOrder(b: Backend, hasGlobal: bool, capacity: nat, health: set<nat>,
                                                before: seq<Event>, later: seq<Event>, c: nat)
    requires c < |Reached(b, hasGlobal, capacity, health, before).heap|
    ensures var s := Reached(b, hasGlobal, capacity, health, before); var s' := Exec(s, later);
            && c < |s'.heap|
            && s.heap[c].accepted <= s'.heap[c].accepted && s.heap[c].taken <= s'.heap[c].taken
            && s'.heap[c].tenant == s.heap[c].tenant
  {
    ReachedInv(b, hasGlobal, capacity, health, before);
    ExecKeeps(Reached(b, hasGlobal, capacity, health, before), later);
  }

  /** The steps of call t alone, n of them. */
  function OwnSteps(t: nat, n: nat): seq<Event> {
    seq(n, _ => Move(t, 0))
  }

  /** Where a send is before it has accepted anything. */
  ghost predicate Undecided(s: Sys, s': Sys, t: nat, tenant: int) {
    t in s'.threads && OfSend(s'.threads[t]) && s'.threads[t].tenant == tenant
    && (s'.threads[t].SDone? ==> !s'.threads[t].outcome.Accepted?)
    && s' == At(s, t, s'.threads[t])
  }

  /** Call t has put its result at the end of one channel, of its own tenant, and is done. */
  ghost predicate AcceptedIn(s: Sys, s': Sys, t: nat, tenant: int) {
    exists c: nat :: c < |s.heap| && AcceptedAt(s, s', t, tenant, c)
  }

  ghost predicate AcceptedAt(s: Sys, s': Sys, t: nat, tenant: int, c: nat)
    requires c < |s.heap|
  {
    && (if tenant == 0 then c == 0 else tenant in s.table && s.table[tenant] == c)
    && s.heap[c].HasRoom()
    && s' == At(s.(heap := s.heap[c := s.heap[c].(accepted := s.heap[c].accepted + [t])]), t,
                SDone(tenant, Accepted(c, |s.heap[c].accepted|)))
  }

  ghost predicate Decided(s: Sys, s': Sys, t: nat, tenant: int) {
    Undecided(s, s', t, tenant) || AcceptedIn(s, s', t, tenant)
  }

  /** The channel for this tenant's results. */
  ghost predicate Targets(s: Sys, tenant: int, ch: nat) {
    && ch < |s.heap| && s.heap[ch].closes == 0
    && (if tenant == 0 then ch == 0 else tenant in s.table && s.table[tenant] == ch)
  }

  lemma TwiceAt(s: Sys, t: nat, pc: Pc, pc': Pc)
    ensures At(At(s, t, pc), t, pc') == At(s, t, pc')
  {
    assert s.threads[t := pc][t := pc'] == s.threads[t := pc'];
  }

  /** One more own step of a send that has accepted nothing yet. */
  lemma OwnStep(s: Sys, t: nat, tenant: int, pc: Pc)
    requires Inv(At(s, t, pc)) && OfSend(pc) && pc.tenant == tenant && (pc.SDone? ==> !pc.outcome.Accepted?)
    ensures var s' := Apply(At(s, t, pc), Move(t, 0));
            Decided(s, s', t, tenant)
  {
    var s1 := At(s, t, pc);
    if Enabled(s1, Move(t, 0)) {
      SenderFacts(s1, t);
      if pc.SSend? {
        OfferDecides(s, t, tenant, pc.ch);
      } else if pc.SRoute? {
        RouteDecides(s, t, tenant);
      } else if pc.SLookup? {
        LookupDecides(s, t, tenant);
      } else if pc.SEnter? {
        EnterDecides(s, t, tenant);
      } else {
        GateDecides(s, t, tenant);
      }
    }
  }

  lemma AcceptsBeneath(s: Sys, t: nat, pc: Pc, tenant: int, ch: nat)
    requires Targets(s, tenant, ch) && s.heap[ch].HasRoom()
    ensures AcceptedAt(s, TrySend(At(s, t, pc), t, tenant, ch), t, tenant, ch)
  {
    var c := s.heap[ch];
    TwiceAt(s.(heap := s.heap[ch := c.(accepted := c.accepted + [t])]), t, pc, SDone(tenant, Accepted(ch, |c.accepted|)));
  }

  lemma RejectsBeneath(s: Sys, t: nat, pc: Pc, tenant: int, ch: nat)
    requires Targets(s, tenant, ch) && !s.heap[ch].HasRoom()
    ensures Undecided(s, TrySend(At(s, t, pc), t, tenant, ch), t, tenant)
  {
    TwiceAt(s, t, pc, SDone(tenant, RejectedFull));
  }

  lemma DecidesBeneath(s: Sys, t: nat, pc: Pc, tenant: int, ch: nat)
    requires Targets(s, tenant, ch)
    ensures Decided(s, TrySend(At(s, t, pc), t, tenant, ch), t, tenant)
  {
    if s.heap[ch].HasRoom() {
      AcceptsBeneath(s, t, pc, tenant, ch);
    } else {
      RejectsBeneath(s, t, pc, tenant, ch);
    }
  }

  lemma OfferDecides(s: Sys, t: nat, tenant: int, ch: nat)
    requires HeapShaped(At(s, t, SSend(tenant, ch))) && Targets(s, tenant, ch)
    ensures Decided(s, SendMove(At(s, t, SSend(tenant, ch)), t), t, tenant)
  {
    DecidesBeneath(s, t, SSend(tenant, ch), tenant, ch);
  }

  lemma RouteDecides(s: Sys, t: nat, tenant: int)
    requires HeapShaped(At(s, t, SRoute(tenant))) && s.heap[0].closes == 0
    ensures Decided(s, SendMove(At(s, t, SRoute(tenant)), t), t, tenant)
  {
    if tenant == 0 && s.hasGlobal {
      DecidesBeneath(s, t, SRoute(0), 0, 0);
    } else {
      TwiceAt(s, t, SRoute(tenant), SendMove(At(s, t, SRoute(tenant)), t).threads[t]);
    }
  }

  lemma LookupDecides(s: Sys, t: nat, tenant: int)
    requires HeapShaped(At(s, t, SLookup(tenant)))
    ensures Undecided(s, SendMove(At(s, t, SLookup(tenant)), t), t, tenant)
  {
    hide Undecided;
    StillUndecided(s, t, SLookup(tenant), tenant,
                   if tenant in s.table then SSend(tenant, s.table[tenant]) else SDone(tenant, RejectedUnregistered));
  }

  /** A step that moves a send on, or rejects it, leaves it undecided. */
  lemma StillUndecided(s: Sys, t: nat, pc: Pc, tenant: int, pc': Pc)
    requires OfSend(pc') && pc'.tenant == tenant && (pc'.SDone? ==> !pc'.outcome.Accepted?)
    ensures Undecided(s, At(At(s, t, pc), t, pc'), t, tenant)
  {
    TwiceAt(s, t, pc, pc');
  }

  lemma EnterDecides(s: Sys, t: nat, tenant: int)
    requires HeapShaped(At(s, t, SEnter(tenant)))
    ensures Undecided(s, SendMove(At(s, t, SEnter(tenant)), t), t, tenant)
  {
    hide Undecided;
    StillUndecided(s, t, SEnter(tenant), tenant, if s.backend.Memory? then SGate(tenant)
                                                 else if s.closed then SDone(tenant, RejectedFrozen) else SRoute(tenant));
  }

  lemma GateDecides(s: Sys, t: nat, tenant: int)
    requires HeapShaped(At(s, t, SGate(tenant)))
    ensures Undecided(s, SendMove(At(s, t, SGate(tenant)), t), t, tenant)
  {
    hide Undecided;
    StillUndecided(s, t, SGate(tenant), tenant, if s.closed then SDone(tenant, RejectedFrozen) else SRoute(tenant));
  }

  /** A whole send, from its entry in any reachable state through any number of its own steps, does
      one of two things: it puts its result at the end of the one channel of its tenant that had room,
      or it changes nothing but its own call. */
  lemma {:induction false} RejectionChangesNothing(b: Backend, hasGlobal: bool, capacity: nat, health: set<nat>, schedule: seq<Event>,
                                                   t: nat, tenant: int, n: nat)
    requires var s := Reached(b, hasGlobal, capacity, health, schedule); t in s.threads && s.threads[t] == SEnter(tenant)
    ensures var s := Reached(b, hasGlobal, capacity, health, schedule); Decided(s, Exec(s, OwnSteps(t, n)), t, tenant)
  {
    var s := Reached(b, hasGlobal, capacity, health, schedule);
    ReachedInv(b, hasGlobal, capacity, health, schedule);
    assert s.threads[t := SEnter(tenant)] == s.threads;
    OwnRun(s, s, t, tenant, n);
  }

  lemma {:induction false} OwnRun(s: Sys, s1: Sys, t: nat, tenant: int, n: nat)
    requires Inv(s1) && Decided(s, s1, t, tenant)
    ensures Decided(s, Exec(s1, OwnSteps(t, n)), t, tenant)
    decreases n
  {
    if n > 0 {
      var s2 := Apply(s1, Move(t, 0));
      assert OwnSteps(t, n)[1..] == OwnSteps(t, n - 1);
      if Undecided(s, s1, t, tenant) {
        OwnStep(s, t, tenant, s1.threads[t]);
      } else {
        AcceptedIsDone(s, s1, t, tenant);
      }
      if Enabled(s1, Move(t, 0)) {
        FireKeeps(s1, Move(t, 0));
      }
      OwnRun(s, s2, t, tenant, n - 1);
    }
  }

  lemma AcceptedIsDone(s: Sys, s1: Sys, t: nat, tenant: int)
    requires AcceptedIn(s, s1, t, tenant)
    ensures Apply(s1, Move(t, 0)) == s1
  {
    var c: nat :| c < |s.heap| && AcceptedAt(s, s1, t, tenant, c);
  }

  /** A call that starts after the freeze accepts nothing: a send is rejected as frozen, and neither
      a registration nor an unregistration succeeds. */
  lemma {:induction false} FrozenMeansFrozen(b: Backend, hasGlobal: bool, capacity: nat, health: set<nat>, schedule: seq<Event>, t: nat)
    requires t in Reached(b, hasGlobal, capacity, health, schedule).late
    ensures var s := Reached(b, hasGlobal, capacity, health, schedule);
            && t in s.threads
            && (s.threads[t].SDone? ==> s.threads[t].outcome == RejectedFrozen)
            && (s.threads[t].RDone? ==> !s.threads[t].ok)
            && (s.threads[t].UDone? ==> !s.threads[t].ok)
  {
    ReachedInv(b, hasGlobal, capacity, health, schedule);
    LateFacts(Reached(b, hasGlobal, capacity, health, schedule), t);
  }

  lemma LateFacts(s: Sys, t: nat)
    requires LateOk(s.threads, s.late, s.closed) && t in s.late
    ensures t in s.threads && FindsFrozen(s.threads[t])
  {
  }
}

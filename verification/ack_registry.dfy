/** The ACK registry as the bus holds it: channel objects, the table that the methods update in
    place, and the admission flag. Each method is one call run without interference; how calls
    interleave is the subject of AckRegistryModel. A send on a closed channel and a second close,
    which panic in Go, are forbidden by the preconditions of the channel methods, so every call
    below carries a proof that it cannot panic. */
module AckRegistry {
  import opened Wrappers
  import opened AckRegistryModel

  datatype Admission = Admitted | Full | Frozen | Unregistered

  class AckChannel {
    const tenant: int
    const capacity: nat
    var buffer: seq<nat>
    var closed: bool
    ghost var accepted: seq<nat>   // everything ever sent
    ghost var taken: seq<nat>      // everything ever received

    ghost predicate Valid()
      reads this
    {
      |buffer| <= capacity && accepted == taken + buffer
    }

    constructor (tenant: int, capacity: nat)
      ensures Valid() && this.tenant == tenant && this.capacity == capacity
      ensures buffer == [] && accepted == [] && !closed
    {
      this.tenant, this.capacity := tenant, capacity;
      buffer, closed := [], false;
      accepted, taken := [], [];
    }

    /** The non-blocking send. */
    method TrySend(result: nat) returns (ok: bool)
      requires Valid() && !closed
      modifies this
      ensures Valid() && !closed && taken == old(taken)
      ensures ok <==> |old(buffer)| < capacity
      ensures buffer == if ok then old(buffer) + [result] else old(buffer)
      ensures accepted == if ok then old(accepted) + [result] else old(accepted)
    {
      ok := |buffer| < capacity;
      if ok {
        buffer := buffer + [result];
        accepted := accepted + [result];
      }
    }

    /** A listener takes the oldest result; it may still drain a closed channel. */
    method Receive() returns (result: Option<nat>)
      requires Valid()
      modifies this
      ensures Valid() && closed == old(closed) && accepted == old(accepted)
      ensures result.None? <==> |old(taken)| == |accepted|
      ensures taken == if result.Some? then old(taken) + [result.value] else old(taken)
    {
      if buffer == [] {
        return None;
      }
      result := Some(buffer[0]);
      taken := taken + [buffer[0]];
      buffer := buffer[1..];
    }

    method Close()
      requires Valid() && !closed
      modifies this
      ensures Valid() && closed && buffer == old(buffer) && accepted == old(accepted) && taken == old(taken)
    {
      closed := true;
    }
  }

  /** Go visits the keys of a map in no particular order. */
  method AnyOf<T>(keys: set<T>) returns (id: T)
    requires keys != {}
    ensures id in keys
  {
    id :| id in keys;
  }

  class Registry {
    const backend: Backend
    const global: AckChannel?
    var frozen: bool
    var table: map<int, AckChannel>
    var terminalErr: int
    var done: bool
    ghost var made: set<AckChannel>   // every tenant channel ever created

    /** A tenant channel is open exactly while it is registered, under its own tenant. */
    ghost predicate Valid()
      reads this, made, global
    {
      && (forall i :: i in table ==> ValidTenant(backend, i) && table[i] in made && table[i].tenant == i)
      && (forall c :: c in made ==> c.Valid() && (!c.closed <==> c.tenant in table && table[c.tenant] == c))
      && (global != null ==> global.Valid() && !global.closed && global !in made)
      && (done ==> frozen && table == map[])
    }

    constructor (backend: Backend, global: AckChannel?)
      requires global != null ==> global.Valid() && !global.closed
      ensures Valid() && !frozen && !done && table == map[] && made == {}
      ensures this.backend == backend && this.global == global
    {
      this.backend, this.global := backend, global;
      frozen, done, terminalErr := false, false, 0;
      table, made := map[], {};
    }

    /** A result goes to its own tenant's channel or nowhere; only results of tenant 0 go to the global
        channel. */
    method SendResult(tenant: int, result: nat) returns (outcome: Admission)
      requires Valid()
      modifies if tenant != 0 then (if tenant in table then {table[tenant]} else {})
               else if global != null then {global} else {}
      ensures Valid()
      ensures outcome == Frozen <==> frozen
      ensures !frozen && tenant != 0 && tenant !in table ==> outcome == Unregistered
      ensures !frozen && tenant in table ==>
                outcome == if |old(table[tenant].buffer)| < table[tenant].capacity then Admitted else Full
      ensures !frozen && tenant == 0 && global == null ==> outcome == if backend.Memory? then Unregistered else Full
      ensures !frozen && tenant == 0 && global != null ==>
                outcome == if |old(global.buffer)| < global.capacity then Admitted else Full
      ensures outcome == Admitted && tenant != 0 ==>
                tenant in table && table[tenant].accepted == old(table[tenant].accepted) + [result]
      ensures outcome == Admitted && tenant == 0 ==>
                global != null && global.accepted == old(global.accepted) + [result]
      ensures global != null && (tenant != 0 || outcome != Admitted) ==>
                global.accepted == old(global.accepted) && global.buffer == old(global.buffer)
      ensures forall c :: c in made && !(outcome == Admitted && tenant in table && c == table[tenant]) ==>
                c.accepted == old(c.accepted) && c.buffer == old(c.buffer)
    {
      if frozen {
        return Frozen;
      }
      var ch: AckChannel? := null;
      if tenant == 0 {
        ch := global;
        if ch == null {
          return if backend.Memory? then Unregistered else Full;
        }
      } else {
        if tenant !in table {
          return Unregistered;
        }
        ch := table[tenant];
      }
      var ok := ch.TrySend(result);
      outcome := if ok then Admitted else Full;
    }

    method RegisterTenant(tenant: int, size: int) returns (ok: bool)
      requires Valid()
      modifies this
      ensures Valid() && frozen == old(frozen) && done == old(done) && terminalErr == old(terminalErr)
      ensures ok <==> !frozen && ValidTenant(backend, tenant) && tenant !in old(table)
      ensures !ok ==> table == old(table) && made == old(made)
      ensures ok ==> tenant in table && fresh(table[tenant]) && table == old(table)[tenant := table[tenant]]
      ensures ok ==> made == old(made) + {table[tenant]}
      ensures ok ==> table[tenant].capacity == Capacity(backend, size) && table[tenant].accepted == []
      ensures ok && size > 0 ==> table[tenant].capacity == size
      ensures ok && size <= 0 ==> table[tenant].capacity == if backend.Memory? then 10000 else 100000
    {
      if frozen || !ValidTenant(backend, tenant) || tenant in table {
        return false;
      }
      var ch := new AckChannel(tenant, Capacity(backend, size));
      table := table[tenant := ch];
      made := made + {ch};
      ok := true;
    }

    /** Detach first, then close; what is buffered stays readable. */
    method UnregisterTenant(tenant: int) returns (ok: bool)
      requires Valid()
      modifies this, if tenant in table then {table[tenant]} else {}
      ensures Valid() && frozen == old(frozen) && done == old(done) && terminalErr == old(terminalErr) && made == old(made)
      ensures ok <==> !frozen && ValidTenant(backend, tenant) && tenant in old(table)
      ensures !ok ==> table == old(table)
      ensures ok ==> table == old(table) - {tenant}
      ensures ok ==> old(table)[tenant].closed && old(table)[tenant].buffer == old(table[tenant].buffer)
    {
      if frozen || !ValidTenant(backend, tenant) || tenant !in table {
        return false;
      }
      var ch := table[tenant];
      table := table - {tenant};
      ch.Close();
      ok := true;
    }

    method DetachAndClose(id: int)
      requires Valid() && frozen && !done && id in table
      modifies this`table, table[id]
      ensures Valid() && table == old(table) - {id}
      ensures old(table)[id].buffer == old(table[id].buffer)
    {
      var ch := table[id];
      table := table - {id};
      ch.Close();
    }

    /** The Kafka and NATS sweep: detach and close one channel after the other under the lock. */
    method Sweep()
      requires Valid() && frozen && !done
      modifies this`table, made
      ensures Valid() && table == map[]
      ensures forall c :: c in made ==> c.closed && c.buffer == old(c.buffer)
    {
      var left := table.Keys;
      while left != {}
        invariant Valid() && left == table.Keys
        invariant forall c :: c in made ==> c.buffer == old(c.buffer)
        decreases |left|
      {
        var id := AnyOf(left);
        left := left - {id};
        DetachAndClose(id);
      }
    }

    /** The memory bus: detach the whole table at once, and close the channels after the lock is
        released. In between they are open but registered nowhere. */
    method DetachThenClose()
      requires Valid() && frozen && !done
      modifies this`table, made
      ensures Valid() && table == map[]
      ensures forall c :: c in made ==> c.closed && c.buffer == old(c.buffer)
    {
      var detached := table;
      table := map[];
      var left := detached.Keys;
      while left != {}
        invariant left <= detached.Keys && table == map[]
        invariant forall i :: i in detached ==> detached[i] in made && detached[i].tenant == i
        invariant forall c :: c in made ==>
                    c.Valid() && c.buffer == old(c.buffer) && (!c.closed <==> c.tenant in left && detached[c.tenant] == c)
        invariant global != null ==> global.Valid() && !global.closed && global !in made
        decreases |left|
      {
        var id := AnyOf(left);
        left := left - {id};
        detached[id].Close();
      }
    }

    /** The first call tears down and stores its error; every later call only returns it. Every
        tenant channel ever made is closed afterwards, none of them twice, and what was buffered
        can still be read. */
    method Close(err: int) returns (r: int)
      requires Valid() && (frozen ==> done)
      modifies this, made
      ensures Valid() && done && frozen && table == map[] && made == old(made)
      ensures r == terminalErr && terminalErr == if old(done) then old(terminalErr) else err
      ensures forall c :: c in made ==> c.closed && c.buffer == old(c.buffer)
    {
      if !done {
        frozen := true;
        if backend.Memory? {
          DetachThenClose();
        } else {
          Sweep();
        }
        terminalErr := err;
        done := true;
      }
      r := terminalErr;
    }
  }
}

/** The Casbin watcher mux: policy-change messages of all tenants arrive over one subscription and
    are dispatched to eight queues, each drained by one worker. */
module PolicyMux {
  import opened Wrappers
  import opened KeyedDispatch
  import opened Decimals

  const PREFIX := "/casbin/tenant/"
  const WORKERS := 8
  const BUFFER := 256

  /** `decoded` is the publisher's ID in the payload, if the payload can be decoded. */
  datatype Message = Message(channel: string, decoded: Option<string>, payload: nat)

  // ---------------------------------------------------------------- channel names

  function ChannelOf(tenant: int): string {
    PREFIX + Format(tenant)
  }

  function TenantOf(channel: string): Option<int> {
    if !(PREFIX <= channel) then None
    else
      var id := channel[|PREFIX|..];
      if id == "" then None else Atoi(id)
  }

  /** The channel of a tenant is read back as that tenant, for every 64-bit tenant number. */
  lemma ChannelRoundTrip(tenant: int)
    requires IsInt64(tenant)
    ensures TenantOf(ChannelOf(tenant)) == Some(tenant)
    ensures ChannelOf(tenant) == "/casbin/tenant/" + Format(tenant)
  {
    AtoiInvertsFormat(tenant);
    assert ChannelOf(tenant)[|PREFIX|..] == Format(tenant);
  }

  /** Messages for a tenant arrive on exactly these channels: the prefix and any way to write the
      tenant's number, with a plus sign or leading zeros too. */
  lemma {:induction false} TenantChannels(channel: string, tenant: int)
    ensures TenantOf(channel) == Some(tenant)
            <==> IsInt64(tenant) && "/casbin/tenant/" <= channel && Writes(channel[15..], tenant)
  {
    assert |PREFIX| == 15;
    if PREFIX <= channel {
      var id := channel[|PREFIX|..];
      AtoiExactly(id, tenant);
      if id == "" {
        assert Atoi("").None?;
      }
    }
  }

  // ---------------------------------------------------------------- shards

  /** Go's remainder of a negative tenant number is negative; the second one makes it an index. */
  function ShardForTenant(tenant: int): (shard: nat)
    ensures shard < WORKERS == 8
    ensures (tenant - shard) % 8 == 0
  {
    ShardIsEuclidean(tenant);
    GoMod(GoMod(tenant, WORKERS) + WORKERS, WORKERS)
  }

  lemma ShardIsEuclidean(tenant: int)
    ensures GoMod(GoMod(tenant, WORKERS) + WORKERS, WORKERS) == tenant % WORKERS
    ensures (tenant - tenant % WORKERS) % WORKERS == 0
  {
    var r := GoMod(tenant, WORKERS);
    if tenant >= 0 {
      assert r == tenant % WORKERS && (r + WORKERS) % WORKERS == r;
    } else {
      assert r == -((-tenant) % WORKERS);
    }
  }

  function ShardOf(m: Message): (shard: nat)
    ensures shard < WORKERS
  {
    match TenantOf(m.channel)
    case None => 0
    case Some(tenant) => ShardForTenant(tenant)
  }

  // ---------------------------------------------------------------- per-tenant order

  /** handleMessage passes a message on to the enforcer of this tenant. */
  predicate Relevant(localID: string, tenant: int, m: Message) {
    TenantOf(m.channel) == Some(tenant) && m.decoded.Some? && m.decoded.value != localID
  }

  function For(localID: string, tenant: int): Message -> bool {
    m => Relevant(localID, tenant, m)
  }

  function Route(): Message -> nat {
    m => ShardOf(m)
  }

  function Reached(schedule: seq<Event<Message>>): Sys<Message> {
    Exec(Init(WORKERS), Route(), schedule)
  }

  /** In every run, the operations applied to a tenant's enforcer are, in order, an initial part of
      the messages received on that tenant's channels without the undecodable and the self-published
      ones; the next ones wait in one queue, the tenant's own. The subscriber waits for room, so nothing
      is missing besides, except that a shutdown may drop the one message it holds. */
  lemma {:induction false} TenantOrder(schedule: seq<Event<Message>>, localID: string, tenant: int)
    requires DropIsLast(schedule)
    ensures var s := Reached(schedule); var mine := For(localID, tenant);
            && |s.workers| == WORKERS
            && var kept := Select(mine, s.calls) + Select(mine, s.workers[ShardForTenant(tenant)].inbox);
               kept <= Select(mine, s.submitted) && |Select(mine, s.submitted)| <= |kept| + 1
  {
    var s, mine := Reached(schedule), For(localID, tenant);
    DropIsLastLoss(Init(WORKERS), Route(), schedule);
    OrderPerKey(WORKERS, Route(), schedule, mine, ShardForTenant(tenant));
    var lost := s.submitted[|s.accepted|..];
    assert s.submitted == s.accepted + lost;
    SelectConcat(mine, s.accepted, lost);
    if lost != [] {
      assert lost == [lost[0]];
      assert lost[..0] == [];
    }
  }

  function Unreadable(): Message -> bool {
    (m: Message) => TenantOf(m.channel).None?
  }

  /** Messages on channels that name no tenant all go to the first worker, which handles them in order;
      they concern no enforcer. */
  lemma {:induction false} UnreadableChannels(schedule: seq<Event<Message>>, localID: string, tenant: int, m: Message)
    ensures var s := Reached(schedule);
            && |s.workers| == 8
            && Select(Unreadable(), s.accepted) == Select(Unreadable(), s.calls) + Select(Unreadable(), s.workers[0].inbox)
            && (TenantOf(m.channel).None? ==> !Relevant(localID, tenant, m))
  {
    OrderPerKey(WORKERS, Route(), schedule, Unreadable(), 0);
  }

  /** Only one worker ever touches a tenant's enforcer, with one message at a time. */
  lemma {:induction false} SingleWriter(schedule: seq<Event<Message>>, localID: string, tenant: int, v: nat)
    requires var s := Reached(schedule);
             v < |s.workers| && s.workers[v].current.Some? && Relevant(localID, tenant, s.workers[v].current.value)
    ensures v == ShardForTenant(tenant)
  {
    OneAtATime(WORKERS, Route(), schedule, For(localID, tenant), ShardForTenant(tenant), v);
  }

  // ---------------------------------------------------------------- the mux as an object

  function Share(w: nat): Message -> bool {
    m => ShardOf(m) == w
  }

  lemma NothingShared(incoming: seq<Message>, w: nat)
    ensures Select(Share(w), incoming[..0]) == []
  {
  }

  lemma ShareGrows(incoming: seq<Message>, n: nat, w: nat)
    requires n < |incoming|
    ensures Select(Share(w), incoming[..n + 1])
         == Select(Share(w), incoming[..n]) + if w == ShardOf(incoming[n]) then [incoming[n]] else []
  {
    hide ShardOf;
    assert incoming[..n + 1] == incoming[..n] + [incoming[n]];
    SelectAppend(Share(w), incoming[..n], incoming[n]);
  }

  class CasbinWatcherMux {
    const localID: string
    var queues: seq<seq<Message>>
    var closed: bool

    ghost predicate Valid()
      reads this
    {
      && |queues| == WORKERS
      && forall w :: 0 <= w < WORKERS ==> |queues[w]| <= BUFFER && forall k :: 0 <= k < |queues[w]| ==> ShardOf(queues[w][k]) == w
    }

    constructor (localID: string)
      ensures Valid() && !closed && this.localID == localID
      ensures forall w :: 0 <= w < WORKERS ==> queues[w] == []
    {
      this.localID := localID;
      queues := seq(WORKERS, _ => []);
      closed := false;
    }

    /** The subscriber's loop over what arrives. It waits at the first message that finds its queue
        full. After a shutdown Go's select may still choose a message that is ready, so the loop ends
        anywhere; `late` is how many it still takes. The message it holds then is dropped if its queue
        is full, and may be dropped otherwise (`drops`). Each worker's queue grows by its share of what
        was dispatched, in order. */
    method SubscribeOnce(incoming: seq<Message>, late: nat, drops: bool) returns (n: nat, held: Option<Message>)
      requires Valid()
      modifies this`queues
      ensures Valid() && n <= |incoming|
      ensures forall w: nat :: w < WORKERS ==> queues[w] == old(queues[w]) + Select(Share(w), incoming[..n])
      ensures !closed ==> held.None? && (n < |incoming| ==> |queues[ShardOf(incoming[n])]| == BUFFER == 256)
      ensures closed ==> n <= late
      ensures held.Some? ==> n < |incoming| && held.value == incoming[n]
      ensures closed && n < late && n < |incoming| ==> held.Some?
    {
      hide ShardOf, Select, Share;
      n, held := 0, None;
      forall w: nat | w < WORKERS ensures Select(Share(w), incoming[..0]) == [] {
        NothingShared(incoming, w);
      }
      while n < |incoming| && !(closed && n == late)
        invariant n <= |incoming| && Valid() && (closed ==> n <= late)
        invariant forall w: nat :: w < WORKERS ==> queues[w] == old(queues[w]) + Select(Share(w), incoming[..n])
      {
        var m := incoming[n];
        var shard := ShardOf(m);
        if |queues[shard]| == BUFFER || (closed && drops) {
          held := if closed then Some(m) else None;
          return;
        }
        forall w: nat | w < WORKERS
          ensures Select(Share(w), incoming[..n + 1]) == Select(Share(w), incoming[..n]) + if w == shard then [m] else []
        {
          ShareGrows(incoming, n, w);
        }
        queues := queues[shard := queues[shard] + [m]];
        n := n + 1;
      }
    }

    /** A worker takes the oldest message of its own queue and finds out whose enforcer it concerns,
        if anybody's. After a shutdown it may stop instead, even if a message is ready (`stops`). */
    method DispatchOne(w: nat, stops: bool) returns (tenant: Option<int>, m: Option<Message>)
      requires Valid() && w < WORKERS
      modifies this`queues
      ensures Valid()
      ensures m.None? <==> old(queues[w]) == [] || (closed && stops)
      ensures m.None? ==> queues == old(queues) && tenant.None?
      ensures m.Some? ==> old(queues[w]) == [m.value] + queues[w]
      ensures forall v: nat :: v < WORKERS && v != w ==> queues[v] == old(queues[v])
      ensures m.Some? ==> forall t :: tenant == Some(t) <==> Relevant(localID, t, m.value)
      ensures m.Some? && (m.value.decoded.None? || m.value.decoded.value == localID) ==> tenant.None?
      ensures m.Some? && m.value.decoded.Some? && m.value.decoded.value != localID ==> tenant == TenantOf(m.value.channel)
      ensures tenant.Some? ==> w == ShardForTenant(tenant.value)
    {
      if queues[w] == [] || (closed && stops) {
        return None, None;
      }
      var head := queues[w][0];
      assert ShardOf(head) == w;
      queues := queues[w := queues[w][1..]];
      m := Some(head);
      tenant := TenantOf(head.channel);
      if tenant.Some? && (head.decoded.None? || head.decoded.value == localID) {
        tenant := None;
      }
    }

    method Shutdown()
      modifies this`closed
      ensures closed
    {
      closed := true;
    }
  }
}

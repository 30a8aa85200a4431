/** The per-sender pool of IMAP connections: its bookkeeping only. Opening a
    connection is an oracle, time is an integer argument, and a waiting
    request is identified by a ticket number. */
module ConnectionPool {
  import opened Common

  /** The pool size each new pool starts with. */
  const DefaultMaxConnections := 3

  /** Milliseconds after which an unused connection is idle. */
  const IdleTimeout := 60000

  datatype ConnStatus = Connecting | Idle | Failed | Closed

  datatype Conn = Conn(id: string, status: ConnStatus, inUse: bool, lastUsed: int)

  /** A request waiting for a connection. */
  datatype Waiter = Waiter(ticket: nat, timestamp: int)

  /** The identity of a promise callback: the `resolve` a promise executor
      receives, or the wrapper around it that is stored in the queue. */
  datatype Resolver = OwnResolve(ticket: nat) | WrappedResolve(ticket: nat)

  /** The callback a queue entry holds: the wrapper of lines 72-75. */
  function StoredResolver(w: Waiter): (r: Resolver)
    ensures r.ticket == w.ticket && r != OwnResolve(w.ticket)
  {
    WrappedResolve(w.ticket)
  }

  /** The message a timed-out request is rejected with. */
  const ConnectionTimeout := "Connection timeout"

  datatype Pool = Pool(connections: seq<Conn>, waiting: seq<Waiter>, maxConnections: int)

  /** What `getConnection` does for a request. */
  datatype Grant =
    | Reused(conn: Conn)
    | Created(conn: Conn)
    | OpenFailed(error: string)
    | Queued(waiter: Waiter)

  datatype PoolStatus = PoolStatus(totalConnections: nat, maxConnections: int, idleConnections: nat,
                                   activeConnections: nat, waitingRequests: nat)

  // ---------------------------------------------------------------------
  // Sequence helpers
  // ---------------------------------------------------------------------

  /** `findIndex` */
  function IndexOf(conns: seq<Conn>, id: string): (r: Option<nat>)
    ensures r.Some? ==> r.value < |conns| && conns[r.value].id == id
                        && forall j :: 0 <= j < r.value ==> conns[j].id != id
    ensures r.None? ==> forall j :: 0 <= j < |conns| ==> conns[j].id != id
  {
    if conns == [] then None
    else if conns[0].id == id then Some(0)
    else
      var r := IndexOf(conns[1..], id);
      if r.Some? then Some(r.value + 1) else None
  }

  /** The first connection that is idle and not in use. */
  function FirstAvailable(conns: seq<Conn>): (r: Option<nat>)
    ensures r.Some? ==> r.value < |conns| && conns[r.value].status == Idle && !conns[r.value].inUse
                        && forall j :: 0 <= j < r.value ==> !(conns[j].status == Idle && !conns[j].inUse)
    ensures r.None? ==> forall j :: 0 <= j < |conns| ==> !(conns[j].status == Idle && !conns[j].inUse)
  {
    if conns == [] then None
    else if conns[0].status == Idle && !conns[0].inUse then Some(0)
    else
      var r := FirstAvailable(conns[1..]);
      if r.Some? then Some(r.value + 1) else None
  }

  /** `splice(i, 1)` */
  function RemoveAt<T>(s: seq<T>, i: nat): (r: seq<T>)
    requires i < |s|
    ensures |r| == |s| - 1
  {
    s[..i] + s[i + 1..]
  }

  /** `conns.filter(pred).length` for the in-use flag */
  function CountInUse(conns: seq<Conn>, inUse: bool): (n: nat)
    ensures n <= |conns|
  {
    if conns == [] then 0 else (if conns[0].inUse == inUse then 1 else 0) + CountInUse(conns[1..], inUse)
  }

  /** The connection ids, in order. */
  function IdsOf(conns: seq<Conn>): (r: seq<string>)
    ensures |r| == |conns|
    ensures forall j :: 0 <= j < |conns| ==> r[j] == conns[j].id
  {
    if conns == [] then [] else [conns[0].id] + IdsOf(conns[1..])
  }

  /** No two connections of a pool share an id (ids carry a timestamp and a
      random suffix). */
  predicate UniqueIds(conns: seq<Conn>)
  {
    NoDuplicates(IdsOf(conns))
  }

  /** Drops the first connection with the id. */
  function RemoveFirst(conns: seq<Conn>, id: string): seq<Conn>
  {
    if conns == [] then []
    else if conns[0].id == id then conns[1..]
    else [conns[0]] + RemoveFirst(conns[1..], id)
  }

  function SetOf(ids: seq<string>): set<string>
  {
    set x | x in ids
  }

  // ---------------------------------------------------------------------
  // The pool map as a value
  // ---------------------------------------------------------------------

  /** `createPool` on the map */
  function EnsurePool(pools: map<string, Pool>, senderId: string): (r: map<string, Pool>)
    ensures senderId in r
    ensures senderId in pools ==> r == pools
    ensures senderId !in pools ==> r == pools[senderId := Pool([], [], DefaultMaxConnections)]
  {
    if senderId in pools then pools else pools[senderId := Pool([], [], DefaultMaxConnections)]
  }

  /** Creating a pool that exists returns it unchanged. */
  lemma EnsurePoolIdempotent(pools: map<string, Pool>, senderId: string)
    ensures EnsurePool(EnsurePool(pools, senderId), senderId) == EnsurePool(pools, senderId)
    ensures forall k :: k != senderId && k in pools ==> k in EnsurePool(pools, senderId) && EnsurePool(pools, senderId)[k] == pools[k]
  {
  }

  /** `removeConnection` on the map: the first connection with the id goes, and
      a pool left with no connections goes too, whether or not one was removed. */
  function RemoveConn(pools: map<string, Pool>, senderId: string, id: string): (r: map<string, Pool>)
  {
    if senderId !in pools then pools
    else
      var p := pools[senderId];
      var i := IndexOf(p.connections, id);
      var conns := if i.Some? then RemoveAt(p.connections, i.value) else p.connections;
      if |conns| == 0 then pools - {senderId} else pools[senderId := p.(connections := conns)]
  }

  /** Only the named pool changes; in it only the matching connection goes,
      and the pool is deleted exactly when nothing is left in it. */
  lemma RemoveConnSpec(pools: map<string, Pool>, senderId: string, id: string)
    ensures senderId !in pools ==> RemoveConn(pools, senderId, id) == pools
    ensures forall k :: k != senderId ==> (k in RemoveConn(pools, senderId, id) <==> k in pools)
    ensures forall k :: k != senderId && k in pools ==> RemoveConn(pools, senderId, id)[k] == pools[k]
    ensures senderId in pools ==>
              var conns := pools[senderId].connections;
              var left := |conns| - (if IndexOf(conns, id).Some? then 1 else 0);
              && (senderId in RemoveConn(pools, senderId, id) <==> left > 0)
              && (left > 0 ==> |RemoveConn(pools, senderId, id)[senderId].connections| == left)
  {
  }

  /** The removals `cleanupIdleConnections` makes for one pool, in turn. */
  function RemoveEach(pools: map<string, Pool>, senderId: string, ids: seq<string>): map<string, Pool>
    decreases |ids|
  {
    if ids == [] then pools else RemoveEach(RemoveConn(pools, senderId, ids[0]), senderId, ids[1..])
  }

  /** Unused for longer than the idle timeout. */
  predicate Stale(c: Conn, now: int)
  {
    !c.inUse && now - c.lastUsed > IdleTimeout
  }

  /** The ids of the stale connections, in order. */
  function StaleIds(conns: seq<Conn>, now: int): (r: seq<string>)
    ensures forall id :: id in r <==> exists j :: 0 <= j < |conns| && conns[j].id == id && Stale(conns[j], now)
  {
    if conns == [] then []
    else
      assert forall j :: 1 <= j < |conns| ==> conns[j] == conns[1..][j - 1];
      (if Stale(conns[0], now) then [conns[0].id] else []) + StaleIds(conns[1..], now)
  }

  /** The connections that are not stale, in order. */
  function Fresh(conns: seq<Conn>, now: int): (r: seq<Conn>)
    ensures forall c :: c in r <==> c in conns && !Stale(c, now)
  {
    if conns == [] then []
    else (if Stale(conns[0], now) then [] else [conns[0]]) + Fresh(conns[1..], now)
  }

  /** The connections whose id is not in `ids`, in order. */
  function WithoutIds(conns: seq<Conn>, ids: set<string>): (r: seq<Conn>)
    ensures |r| <= |conns|
  {
    if conns == [] then []
    else (if conns[0].id in ids then [] else [conns[0]]) + WithoutIds(conns[1..], ids)
  }

  /** The queue without its first entry for `ticket`. */
  function DropTicket(w: seq<Waiter>, ticket: nat): seq<Waiter>
  {
    if w == [] then []
    else if w[0].ticket == ticket then w[1..]
    else [w[0]] + DropTicket(w[1..], ticket)
  }

  /** `findIndex` then `splice` on the ticket is `DropTicket`. */
  lemma {:induction false} DropTicketAt(w: seq<Waiter>, ticket: nat, i: nat)
    requires i <= |w|
    requires forall j :: 0 <= j < i ==> w[j].ticket != ticket
    requires i < |w| ==> w[i].ticket == ticket
    ensures DropTicket(w, ticket) == if i < |w| then RemoveAt(w, i) else w
    decreases i
  {
    if w == [] {
    } else if i == 0 {
    } else {
      DropTicketAt(w[1..], ticket, i - 1);
      if i < |w| {
        assert w[1..][..i - 1] + w[1..][i..] == w[1..i] + w[i + 1..];
        assert [w[0]] + (w[1..i] + w[i + 1..]) == w[..i] + w[i + 1..];
      } else {
        assert [w[0]] + w[1..] == w;
      }
    }
  }

  /** No two queue entries share a ticket: every request is its own promise. */
  predicate DistinctTickets(w: seq<Waiter>)
  {
    forall i, j :: 0 <= i < j < |w| ==> w[i].ticket != w[j].ticket
  }

  /** With distinct tickets, dropping a ticket leaves no entry for it, and
      every other entry stays. */
  lemma {:induction false} DropTicketGone(w: seq<Waiter>, ticket: nat)
    requires DistinctTickets(w)
    ensures forall j :: 0 <= j < |DropTicket(w, ticket)| ==> DropTicket(w, ticket)[j].ticket != ticket
    ensures forall x :: x in w && x.ticket != ticket ==> x in DropTicket(w, ticket)
  {
    if w == [] {
    } else if w[0].ticket == ticket {
      forall j | 0 <= j < |w[1..]|
        ensures w[1..][j].ticket != ticket
      {
        assert w[1..][j] == w[j + 1];
      }
    } else {
      assert DistinctTickets(w[1..]) by {
        forall i, j | 0 <= i < j < |w[1..]|
          ensures w[1..][i].ticket != w[1..][j].ticket
        {
          assert w[1..][i] == w[i + 1] && w[1..][j] == w[j + 1];
        }
      }
      DropTicketGone(w[1..], ticket);
      var r := DropTicket(w, ticket);
      assert r == [w[0]] + DropTicket(w[1..], ticket);
      forall j | 0 <= j < |r|
        ensures r[j].ticket != ticket
      {
        if j > 0 {
          assert r[j] == DropTicket(w[1..], ticket)[j - 1];
        }
      }
      forall x | x in w && x.ticket != ticket
        ensures x in r
      {
        if x != w[0] {
          assert x in w[1..];
        }
      }
    }
  }

  /** The pools after the corrected timer: the sender's first waiter with the
      ticket is dropped. */
  function WithoutWaiter(pools: map<string, Pool>, senderId: string, ticket: nat): map<string, Pool>
  {
    if senderId in pools
    then pools[senderId := pools[senderId].(waiting := DropTicket(pools[senderId].waiting, ticket))]
    else pools
  }

  /** The pools after `releaseConnection`, and the waiting request it hands the
      connection to. */
  function Released(pools: map<string, Pool>, senderId: string, connId: string, now: int): (map<string, Pool>, Option<Waiter>)
  {
    if senderId !in pools then (pools, None)
    else
      var p := pools[senderId];
      var i := IndexOf(p.connections, connId);
      if i.None? then (pools, None)
      else
        var conns := p.connections[i.value := p.connections[i.value].(inUse := false, lastUsed := now)];
        if p.waiting == [] then (pools[senderId := p.(connections := conns)], None)
        else (pools[senderId := p.(connections := conns, waiting := p.waiting[1..])], Some(p.waiting[0]))
  }

  /** As written, the timer leaves a timed-out request queued, so when it was
      at the head of the queue the next release of one of the sender's
      connections hands the connection to that already rejected request, and
      the live request behind it stays queued. */
  lemma TimedOutHeadIsServed(pools: map<string, Pool>, senderId: string, connId: string, now: int, ticket: nat)
    requires senderId in pools && IndexOf(pools[senderId].connections, connId).Some?
    requires pools[senderId].waiting != [] && pools[senderId].waiting[0].ticket == ticket
    ensures var (after, handed) := Released(pools, senderId, connId, now);
            && handed.Some? && handed.value.ticket == ticket
            && senderId in after
            && after[senderId].waiting == pools[senderId].waiting[1..]
  {
  }

  /** With the corrected timer, a release never hands the connection to the
      request that timed out, and every other waiting request stays queued. */
  lemma TimedOutNeverServed(pools: map<string, Pool>, senderId: string, connId: string, now: int, ticket: nat)
    requires senderId in pools && DistinctTickets(pools[senderId].waiting)
    ensures var after := WithoutWaiter(pools, senderId, ticket);
            && (forall x :: x in pools[senderId].waiting && x.ticket != ticket ==> x in after[senderId].waiting)
            && (Released(after, senderId, connId, now).1.Some? ==> Released(after, senderId, connId, now).1.value.ticket != ticket)
  {
    DropTicketGone(pools[senderId].waiting, ticket);
  }

  // ---------------------------------------------------------------------
  // The pool object
  // ---------------------------------------------------------------------

  class ConnectionPool {
    var pools: map<string, Pool>

    constructor ()
      ensures pools == map[]
    {
      pools := map[];
    }

    /** `createPool`: returns the sender's pool, adding an empty one first when
        there is none. */
    method CreatePool(senderId: string) returns (p: Pool)
      modifies this
      ensures pools == EnsurePool(old(pools), senderId)
      ensures p == pools[senderId]
    {
      if senderId !in pools {
        pools := pools[senderId := Pool([], [], DefaultMaxConnections)];
      }
      p := pools[senderId];
    }

    /** `getConnection`: reuse the first idle connection not in use; else open
        one while the pool is below its cap (`attempt` is the outcome of opening
        it: its id or an error); else queue the request. */
    method GetConnection(senderId: string, now: int, attempt: Result<string, string>, ticket: nat) returns (g: Grant)
      modifies this
      ensures senderId in pools
      ensures forall k :: k != senderId ==> (k in pools <==> k in old(pools)) && (k in old(pools) ==> pools[k] == old(pools)[k])
      ensures var p := EnsurePool(old(pools), senderId)[senderId];
              && (g.Reused? <==> FirstAvailable(p.connections).Some?)
              && (g.Created? ==> |p.connections| < p.maxConnections && attempt.Ok?
                                 && pools[senderId] == p.(connections := p.connections + [g.conn])
                                 && g.conn == Conn(attempt.value, Idle, true, now))
              && (g.OpenFailed? ==> |p.connections| < p.maxConnections && pools[senderId] == p)
              && (g.Queued? ==> FirstAvailable(p.connections).None? && |p.connections| >= p.maxConnections
                                && pools[senderId] == p.(waiting := p.waiting + [Waiter(ticket, now)]))
              && (g.Reused? ==> var i := FirstAvailable(p.connections).value;
                                g.conn == p.connections[i].(inUse := true, lastUsed := now)
                                && pools[senderId] == p.(connections := p.connections[i := g.conn]))
              && |pools[senderId].connections| <= |p.connections| + 1
    {
      var p := CreatePool(senderId);
      var available := FirstAvailable(p.connections);
      if available.Some? {
        var conn := p.connections[available.value].(inUse := true, lastUsed := now);
        pools := pools[senderId := p.(connections := p.connections[available.value := conn])];
        return Reused(conn);
      }
      if |p.connections| < p.maxConnections {
        if attempt.Err? {
          return OpenFailed(attempt.error);
        }
        var conn := Conn(attempt.value, Idle, true, now);
        pools := pools[senderId := p.(connections := p.connections + [conn])];
        return Created(conn);
      }
      var w := Waiter(ticket, now);
      pools := pools[senderId := p.(waiting := p.waiting + [w])];
      g := Queued(w);
    }

    /** The timer of a queued request (lines 63-69), as written. It looks its
        waiter up by the promise's own `resolve`, but the queue holds the wrapper
        built around that function at lines 72-75, so no entry matches:
        `index` is -1, the splice is skipped, the waiter stays queued and the
        promise is rejected with `err`. */
    method TimeOutWaiter(senderId: string, ticket: nat) returns (index: int, err: string)
      ensures index == -1
      ensures err == ConnectionTimeout
    {
      index := -1;
      if senderId in pools {
        var w := pools[senderId].waiting;
        var i := 0;
        while i < |w| && StoredResolver(w[i]) != OwnResolve(ticket)
          invariant 0 <= i <= |w|
          invariant forall j :: 0 <= j < i ==> StoredResolver(w[j]) != OwnResolve(ticket)
        {
          i := i + 1;
        }
        index := if i < |w| then i else -1;
      }
      err := ConnectionTimeout;
    }

    /** The timer as evidently intended: the waiter is looked up by the entry
        the queue actually holds, the first one with its ticket leaves the
        queue, and the promise is rejected. */
    method TimeOutWaiterCorrected(senderId: string, ticket: nat) returns (err: string)
      modifies this
      ensures err == ConnectionTimeout
      ensures pools == WithoutWaiter(old(pools), senderId, ticket)
    {
      if senderId in pools {
        var p := pools[senderId];
        var i := 0;
        while i < |p.waiting| && StoredResolver(p.waiting[i]) != WrappedResolve(ticket)
          invariant 0 <= i <= |p.waiting|
          invariant forall j :: 0 <= j < i ==> p.waiting[j].ticket != ticket
        {
          i := i + 1;
        }
        DropTicketAt(p.waiting, ticket, i);
        if i < |p.waiting| {
          pools := pools[senderId := p.(waiting := RemoveAt(p.waiting, i))];
        }
      }
      err := ConnectionTimeout;
    }

    /** `releaseConnection`: the connection is marked unused and the oldest
        waiting request, if any, is handed it (and leaves the queue). */
    method ReleaseConnection(senderId: string, connId: string, now: int) returns (handed: Option<Waiter>)
      modifies this
      ensures (pools, handed) == Released(old(pools), senderId, connId, now)
      ensures senderId !in old(pools) ==> pools == old(pools) && handed.None?
      ensures senderId in old(pools) && IndexOf(old(pools)[senderId].connections, connId).None? ==>
                pools == old(pools) && handed.None?
      ensures senderId in old(pools) && IndexOf(old(pools)[senderId].connections, connId).Some? ==>
                var p := old(pools)[senderId];
                var i := IndexOf(p.connections, connId).value;
                var conns := p.connections[i := p.connections[i].(inUse := false, lastUsed := now)];
                && (p.waiting == [] ==> handed.None? && pools == old(pools)[senderId := p.(connections := conns)])
                && (p.waiting != [] ==> handed == Some(p.waiting[0])
                                        && pools == old(pools)[senderId := p.(connections := conns, waiting := p.waiting[1..])])
    {
      if senderId !in pools {
        return None;
      }
      var p := pools[senderId];
      var i := IndexOf(p.connections, connId);
      if i.None? {
        return None;
      }
      var conns := p.connections[i.value := p.connections[i.value].(inUse := false, lastUsed := now)];
      if p.waiting == [] {
        pools := pools[senderId := p.(connections := conns)];
        handed := None;
      } else {
        pools := pools[senderId := p.(connections := conns, waiting := p.waiting[1..])];
        handed := Some(p.waiting[0]);
      }
    }

    /** `removeConnection` */
    method RemoveConnection(senderId: string, connId: string)
      modifies this
      ensures pools == RemoveConn(old(pools), senderId, connId)
    {
      if senderId !in pools {
        return;
      }
      var p := pools[senderId];
      var i := IndexOf(p.connections, connId);
      var conns := p.connections;
      if i.Some? {
        conns := RemoveAt(conns, i.value);
      }
      if |conns| == 0 {
        pools := pools - {senderId};
      } else {
        pools := pools[senderId := p.(connections := conns)];
      }
    }

    /** `cleanupIdleConnections`: for every pool, each stale connection found
        at the start is removed through `removeConnection`. */
    method CleanupIdleConnections(now: int) returns (cleaned: nat)
      modifies this
      ensures pools.Keys <= old(pools).Keys
      ensures forall k :: k in old(pools) ==>
                var after := RemoveEach(old(pools), k, StaleIds(old(pools)[k].connections, now));
                (k in pools <==> k in after) && (k in pools ==> pools[k] == after[k])
    {
      ghost var start := pools;
      var keys := pools.Keys;
      cleaned := 0;
      while keys != {}
        invariant keys <= start.Keys
        invariant pools.Keys <= start.Keys
        invariant forall k :: k in keys ==> k in pools && pools[k] == start[k]
        invariant forall k :: k in start && k !in keys ==>
                    var after := RemoveEach(start, k, StaleIds(start[k].connections, now));
                    (k in pools <==> k in after) && (k in pools ==> pools[k] == after[k])
        decreases |keys|
      {
        var k :| k in keys;
        var ids := StaleIds(pools[k].connections, now);
        ghost var before := pools;
        RemoveConnections(k, ids);
        cleaned := cleaned + |ids|;
        RemoveEachOthers(before, k, ids);
        RemoveEachOthersAll(start, before, k, ids);
        keys := keys - {k};
      }
    }

    /** The inner `for` of `cleanupIdleConnections`: each stale id of one pool
        removed in turn. */
    method RemoveConnections(k: string, ids: seq<string>)
      modifies this
      ensures pools == RemoveEach(old(pools), k, ids)
    {
      var j := 0;
      while j < |ids|
        invariant 0 <= j <= |ids|
        invariant RemoveEach(old(pools), k, ids) == RemoveEach(pools, k, ids[j..])
      {
        assert ids[j..][1..] == ids[j + 1..];
        RemoveConnection(k, ids[j]);
        j := j + 1;
      }
    }

    /** `getPoolStatus` */
    function PoolStatusOf(senderId: string): (r: Option<PoolStatus>)
      reads this
      ensures r.None? <==> senderId !in pools
      ensures r.Some? ==> r.value.idleConnections + r.value.activeConnections == r.value.totalConnections
                          && r.value.totalConnections == |pools[senderId].connections|
                          && r.value.waitingRequests == |pools[senderId].waiting|
    {
      if senderId !in pools then None
      else
        var p := pools[senderId];
        InUseSplit(p.connections);
        Some(PoolStatus(|p.connections|, p.maxConnections, CountInUse(p.connections, false),
                        CountInUse(p.connections, true), |p.waiting|))
    }

    /** `updatePoolConfig`: a truthy (present and non-zero) size replaces the
        pool's cap; nothing else changes. */
    method UpdatePoolConfig(senderId: string, maxConnections: Option<int>)
      modifies this
      ensures senderId in old(pools) && maxConnections.Some? && maxConnections.value != 0 ==>
                pools == old(pools)[senderId := old(pools)[senderId].(maxConnections := maxConnections.value)]
      ensures !(senderId in old(pools) && maxConnections.Some? && maxConnections.value != 0) ==> pools == old(pools)
    {
      if senderId in pools && maxConnections.Some? && maxConnections.value != 0 {
        pools := pools[senderId := pools[senderId].(maxConnections := maxConnections.value)];
      }
    }

    /** `resetPool` */
    method ResetPool(senderId: string)
      modifies this
      ensures pools == old(pools) - {senderId}
    {
      if senderId in pools {
        pools := pools - {senderId};
      }
    }

    /** `closeAllConnections` */
    method CloseAllConnections()
      modifies this
      ensures pools == map[]
    {
      pools := map[];
    }
  }

  lemma {:induction false} InUseSplit(conns: seq<Conn>)
    ensures CountInUse(conns, false) + CountInUse(conns, true) == |conns|
  {
    if conns != [] {
      InUseSplit(conns[1..]);
    }
  }

  /** Removals for one sender leave every other pool as it was. */
  lemma {:induction false} RemoveEachOthers(pools: map<string, Pool>, senderId: string, ids: seq<string>)
    ensures forall k :: k != senderId ==>
              (k in RemoveEach(pools, senderId, ids) <==> k in pools)
              && (k in pools ==> RemoveEach(pools, senderId, ids)[k] == pools[k])
    decreases |ids|
  {
    if ids != [] {
      RemoveConnSpec(pools, senderId, ids[0]);
      RemoveEachOthers(RemoveConn(pools, senderId, ids[0]), senderId, ids[1..]);
    }
  }

  /** The removals for one sender depend only on that sender's pool. */
  lemma {:induction false} RemoveEachOthersAll(a: map<string, Pool>, b: map<string, Pool>, senderId: string, ids: seq<string>)
    requires senderId in a <==> senderId in b
    requires senderId in a ==> a[senderId] == b[senderId]
    ensures senderId in RemoveEach(a, senderId, ids) <==> senderId in RemoveEach(b, senderId, ids)
    ensures senderId in RemoveEach(a, senderId, ids) ==> RemoveEach(a, senderId, ids)[senderId] == RemoveEach(b, senderId, ids)[senderId]
    decreases |ids|
  {
    if ids != [] {
      RemoveEachOthersAll(RemoveConn(a, senderId, ids[0]), RemoveConn(b, senderId, ids[0]), senderId, ids[1..]);
    }
  }

  // ---------------------------------------------------------------------
  // What a cleanup pass removes
  // ---------------------------------------------------------------------

  /** `findIndex` followed by `splice` drops the first match. */
  lemma RemoveAtIndexOf(conns: seq<Conn>, id: string)
    ensures (if IndexOf(conns, id).Some? then RemoveAt(conns, IndexOf(conns, id).value) else conns)
            == RemoveFirst(conns, id)
  {
    var r := IndexOf(conns, id);
    if r.Some? {
      RemoveFirstAt(conns, id, r.value);
    } else {
      RemoveFirstNone(conns, id);
    }
  }

  lemma {:induction false} RemoveFirstAt(conns: seq<Conn>, id: string, i: nat)
    requires i < |conns| && conns[i].id == id
    requires forall j :: 0 <= j < i ==> conns[j].id != id
    ensures RemoveFirst(conns, id) == conns[..i] + conns[i + 1..]
  {
    if i == 0 {
      assert conns[..0] + conns[1..] == conns[1..];
    } else {
      var tail := conns[1..];
      assert conns[0].id != id;
      forall j | 0 <= j < i - 1 ensures tail[j].id != id {
        assert tail[j] == conns[j + 1];
      }
      RemoveFirstAt(tail, id, i - 1);
      assert RemoveFirst(conns, id) == [conns[0]] + (tail[..i - 1] + tail[i..]);
      assert conns[..i] == [conns[0]] + tail[..i - 1];
      assert conns[i + 1..] == tail[i..];
    }
  }

  lemma {:induction false} RemoveFirstNone(conns: seq<Conn>, id: string)
    requires forall j :: 0 <= j < |conns| ==> conns[j].id != id
    ensures RemoveFirst(conns, id) == conns
  {
    if conns != [] {
      var tail := conns[1..];
      assert forall j :: 0 <= j < |tail| ==> tail[j] == conns[j + 1];
      RemoveFirstNone(tail, id);
    }
  }

  lemma {:induction false} UniqueTail(conns: seq<Conn>)
    requires conns != [] && UniqueIds(conns)
    ensures UniqueIds(conns[1..]) && conns[0].id !in IdsOf(conns[1..])
  {
    assert IdsOf(conns) == [conns[0].id] + IdsOf(conns[1..]);
    forall j | 0 <= j < |conns| - 1
      ensures IdsOf(conns[1..])[j] != conns[0].id
    {
      assert IdsOf(conns[1..])[j] == IdsOf(conns)[j + 1];
    }
    forall i, j | 0 <= i < j < |conns| - 1
      ensures IdsOf(conns[1..])[i] != IdsOf(conns[1..])[j]
    {
      assert IdsOf(conns[1..])[i] == IdsOf(conns)[i + 1];
      assert IdsOf(conns[1..])[j] == IdsOf(conns)[j + 1];
    }
  }

  /** An id that no connection carries changes nothing. */
  lemma {:induction false} WithoutIdsAbsent(conns: seq<Conn>, ids: set<string>, id: string)
    requires id !in IdsOf(conns)
    ensures WithoutIds(conns, ids + {id}) == WithoutIds(conns, ids)
  {
    if conns != [] {
      assert IdsOf(conns)[0] == conns[0].id;
      assert forall j :: 0 <= j < |conns| - 1 ==> IdsOf(conns[1..])[j] == IdsOf(conns)[j + 1];
      WithoutIdsAbsent(conns[1..], ids, id);
    }
  }

  /** Once every connection is gone, removing more ids leaves nothing. */
  lemma {:induction false} WithoutIdsEmptyMono(conns: seq<Conn>, ids: set<string>, more: set<string>)
    requires ids <= more && WithoutIds(conns, ids) == []
    ensures WithoutIds(conns, more) == []
  {
    if conns != [] {
      WithoutIdsEmptyMono(conns[1..], ids, more);
    }
  }

  /** With unique ids, removing one more id from what is left drops exactly
      that connection. */
  lemma {:induction false} RemoveFirstWithout(conns: seq<Conn>, ids: set<string>, id: string)
    requires UniqueIds(conns) && id in IdsOf(conns) && id !in ids
    ensures RemoveFirst(WithoutIds(conns, ids), id) == WithoutIds(conns, ids + {id})
  {
    UniqueTail(conns);
    assert IdsOf(conns) == [conns[0].id] + IdsOf(conns[1..]);
    var rest := WithoutIds(conns[1..], ids);
    if conns[0].id == id {
      WithoutIdsAbsent(conns[1..], ids, id);
      assert WithoutIds(conns, ids) == [conns[0]] + rest;
    } else {
      assert id in IdsOf(conns[1..]);
      RemoveFirstWithout(conns[1..], ids, id);
      if conns[0].id in ids {
        assert WithoutIds(conns, ids) == rest;
        assert WithoutIds(conns, ids + {id}) == WithoutIds(conns[1..], ids + {id});
      } else {
        assert WithoutIds(conns, ids) == [conns[0]] + rest;
        assert ([conns[0]] + rest)[1..] == rest;
        assert RemoveFirst([conns[0]] + rest, id) == [conns[0]] + RemoveFirst(rest, id);
        assert WithoutIds(conns, ids + {id}) == [conns[0]] + WithoutIds(conns[1..], ids + {id});
      }
    }
  }

  /** A sender without a pool stays without one. */
  lemma {:induction false} RemoveEachAbsent(pools: map<string, Pool>, senderId: string, ids: seq<string>)
    requires senderId !in pools
    ensures RemoveEach(pools, senderId, ids) == pools
    decreases |ids|
  {
    if ids != [] {
      RemoveEachAbsent(pools, senderId, ids[1..]);
    }
  }

  /** Removing distinct ids of a pool with unique ids, one after the other,
      leaves the connections whose id was not removed, and deletes the pool
      when none is left. */
  lemma {:induction false} RemoveEachWithout(pools: map<string, Pool>, senderId: string, p: Pool,
                                             conns: seq<Conn>, done: set<string>, ids: seq<string>)
    requires UniqueIds(conns) && NoDuplicates(ids)
    requires forall id :: id in ids ==> id in IdsOf(conns) && id !in done
    requires senderId in pools && pools[senderId] == p.(connections := WithoutIds(conns, done))
    requires WithoutIds(conns, done) != []
    ensures ids == [] ==> RemoveEach(pools, senderId, ids) == pools
    ensures ids != [] ==>
              var left := WithoutIds(conns, done + SetOf(ids));
              && (senderId in RemoveEach(pools, senderId, ids) <==> left != [])
              && (left != [] ==> RemoveEach(pools, senderId, ids)[senderId] == p.(connections := left))
    decreases |ids|
  {
    if ids != [] {
      var id := ids[0];
      var next := RemoveConn(pools, senderId, id);
      RemoveConnFirst(pools, senderId, id);
      RemoveFirstWithout(conns, done, id);
      var after := WithoutIds(conns, done + {id});
      IdsTail(ids, done);
      if after == [] {
        RemoveEachAbsent(next, senderId, ids[1..]);
        WithoutIdsEmptyMono(conns, done + {id}, done + SetOf(ids));
      } else {
        RemoveEachWithout(next, senderId, p, conns, done + {id}, ids[1..]);
      }
    }
  }

  /** `removeConnection` drops the first connection with the id. */
  lemma RemoveConnFirst(pools: map<string, Pool>, senderId: string, id: string)
    requires senderId in pools
    ensures var p := pools[senderId];
            var conns := RemoveFirst(p.connections, id);
            RemoveConn(pools, senderId, id)
            == if conns == [] then pools - {senderId} else pools[senderId := p.(connections := conns)]
  {
    RemoveAtIndexOf(pools[senderId].connections, id);
  }

  lemma {:induction false} IdsTail(ids: seq<string>, done: set<string>)
    requires ids != [] && NoDuplicates(ids)
    ensures NoDuplicates(ids[1..])
    ensures forall x :: x in ids[1..] ==> x in ids && x != ids[0]
    ensures done + SetOf(ids) == (done + {ids[0]}) + SetOf(ids[1..])
    ensures ids[1..] == [] ==> done + SetOf(ids) == done + {ids[0]}
  {
    forall i, j | 0 <= i < j < |ids[1..]|
      ensures ids[1..][i] != ids[1..][j]
    {
      assert ids[1..][i] == ids[i + 1] && ids[1..][j] == ids[j + 1];
    }
    forall x | x in ids[1..]
      ensures x in ids && x != ids[0]
    {
      var j :| 0 <= j < |ids[1..]| && ids[1..][j] == x;
      assert ids[j + 1] == x;
    }
    assert SetOf(ids) == {ids[0]} + SetOf(ids[1..]) by {
      assert ids == [ids[0]] + ids[1..];
    }
  }

  /** The stale ids are distinct ids of the pool, and dropping them leaves
      exactly the connections that are not stale. */
  lemma {:induction false} StaleIdsFacts(conns: seq<Conn>, now: int)
    requires UniqueIds(conns)
    ensures NoDuplicates(StaleIds(conns, now))
    ensures forall id :: id in StaleIds(conns, now) ==> id in IdsOf(conns)
    ensures WithoutIds(conns, SetOf(StaleIds(conns, now))) == Fresh(conns, now)
  {
    if conns != [] {
      UniqueTail(conns);
      StaleIdsFacts(conns[1..], now);
      var c := conns[0];
      var rest := StaleIds(conns[1..], now);
      assert IdsOf(conns) == [c.id] + IdsOf(conns[1..]);
      assert c.id !in rest;
      if Stale(c, now) {
        assert StaleIds(conns, now) == [c.id] + rest;
        assert SetOf([c.id] + rest) == SetOf(rest) + {c.id};
        WithoutIdsAbsent(conns[1..], SetOf(rest), c.id);
        assert NoDuplicates([c.id] + rest) by {
          forall i, j | 0 <= i < j < |rest| + 1
            ensures ([c.id] + rest)[i] != ([c.id] + rest)[j]
          {
            assert ([c.id] + rest)[j] == rest[j - 1];
            if i > 0 {
              assert ([c.id] + rest)[i] == rest[i - 1];
            }
          }
        }
      } else {
        assert StaleIds(conns, now) == rest;
      }
    }
  }

  /** `cleanupIdleConnections` on one pool with unique ids: with nothing stale
      the pool is left as it was (even an empty one); otherwise exactly the
      stale connections go, and the pool goes when nothing else is left. */
  lemma CleanupRemovesStale(pools: map<string, Pool>, senderId: string, now: int)
    requires senderId in pools && UniqueIds(pools[senderId].connections)
    ensures var stale := StaleIds(pools[senderId].connections, now);
            var r := RemoveEach(pools, senderId, stale);
            var kept := Fresh(pools[senderId].connections, now);
            && (stale == [] ==> r == pools)
            && (stale != [] ==> (senderId in r <==> kept != [])
                                && (kept != [] ==> r[senderId] == pools[senderId].(connections := kept)))
  {
    var p := pools[senderId];
    var stale := StaleIds(p.connections, now);
    StaleIdsFacts(p.connections, now);
    if stale != [] {
      WithoutIdsNone(p.connections);
      assert {} + SetOf(stale) == SetOf(stale);
      RemoveEachWithout(pools, senderId, p, p.connections, {}, stale);
    }
  }

  lemma {:induction false} WithoutIdsNone(conns: seq<Conn>)
    ensures WithoutIds(conns, {}) == conns
  {
    if conns != [] {
      WithoutIdsNone(conns[1..]);
    }
  }
}

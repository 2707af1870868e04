/**
 The engine object: tracking maps and counters updated in place around the mutable ledger. Each
 method is proved to compute the corresponding function of module Engines.
 */
module Runtimes {
  import opened Core
  import opened Ledgers
  import opened Reconcile
  import opened States
  import opened Engines
  import opened Sums
  import opened Books
  import opened Restores

  /** A map halfway through a sweep that keeps the live entries; `todo` has not been visited. */
  ghost function Swept<V>(start: map<string, V>, todo: set<string>, live: V -> bool): map<string, V> {
    map id | id in start && (id in todo || live(start[id])) :: start[id]
  }

  lemma SweepOne<V>(start: map<string, V>, todo: set<string>, live: V -> bool, id: string)
    requires id in todo && id in start
    ensures id in Swept(start, todo, live) && Swept(start, todo, live)[id] == start[id]
    ensures Swept(start, todo - {id}, live)
         == if live(start[id]) then Swept(start, todo, live) else Swept(start, todo, live) - {id}
  {
  }

  /** How many events are kept for an order. */
  function KeptEvents(): (string, Pending) -> real {
    (_: string, p: Pending) => |p.events| as real
  }

  class Runtime {
    const state: State
    const ttls: TTLs
    var accepted: set<string>
    var finalized: set<string>
    var finalizedAt: map<string, int>
    var pending: map<string, Pending>
    var counters: Counters

    function View(): Engine
      reads this, state
    {
      Engine(state.View(), accepted, finalized, finalizedAt, pending, counters)
    }

    constructor (state: State, ttls: TTLs)
      ensures this.state == state && this.ttls == ttls
      ensures View() == Engine(state.View(), {}, {}, map[], map[], Counters(0, 0, 0, 0, 0, 0))
      ensures Tracking(View())
    {
      this.state, this.ttls := state, ttls;
      accepted, finalized, finalizedAt, pending := {}, {}, map[], map[];
      counters := Counters(0, 0, 0, 0, 0, 0);
    }

    /** Start-up: restored orders count as accepted. */
    method RestoreOpenOrdersTracking(ids: seq<string>)
      modifies this`accepted
      ensures accepted == old(accepted) + (set id | id in ids && id != "")
    {
      var i := 0;
      while i < |ids|
        invariant i <= |ids|
        invariant accepted == old(accepted) + (set id | id in ids[..i] && id != "")
      {
        assert ids[..i + 1] == ids[..i] + [ids[i]];
        if ids[i] != "" { accepted := accepted + {ids[i]}; }
        i := i + 1;
      }
      assert ids[..i] == ids;
    }

    /** Start of a new engine: the ledger is restored from the exchange and every restored order
        is tracked, so that each reservation belongs to an accepted order. */
    method Start(remote: seq<RemoteOrder>, items: seq<(string, real)>) returns (ghost visit: seq<string>)
      requires accepted == {} && finalized == {} && finalizedAt == map[] && pending == map[]
      modifies this, state
      ensures Lists(visit, RestoredOrders(remote).Keys)
      ensures state.View() == Restore(old(state.View()), ExchangeSnapshot(old(state.View()), remote, items), visit)
      ensures accepted == RestoredOrders(remote).Keys
      ensures Tracking(View()) && Owned(View())
    {
      ghost var before := state.View();
      var ids;
      ids, visit := state.RestoreFromExchange(remote, items);
      ExchangeRestoreEstablishesBooks(before, remote, items, visit, Token(""));
      RestoreOpenOrdersTracking(ids);
      hide Restore, RestoredOrders;
    }

    method BufferExecution(ev: ExecutionEvent, now: int)
      modifies this`pending, this`counters
      ensures View() == Buffer(old(View()), ev, now)
    {
      var p := Pending([], now);
      if ev.orderID in pending { p := pending[ev.orderID]; }
      p := p.(events := p.events + [ev]);
      pending := pending[ev.orderID := p];
      counters := counters.(buffered := counters.buffered + 1);
    }

    method FinalizeOrder(id: string, now: int)
      modifies this`accepted, this`pending, this`finalized, this`finalizedAt
      ensures View() == Finalize(old(View()), id, now)
    {
      accepted := accepted - {id};
      pending := pending - {id};
      finalized := finalized + {id};
      finalizedAt := finalizedAt[id := now];
    }

    method HandleExecutionEvent(ev: ExecutionEvent, count: bool, c: Clock)
      requires PendingDeferrable(View())
      modifies this, state
      ensures View() == Handle(old(View()), ev, count, c)
      decreases if ev.status.Accepted? then 1 else 0, 0
    {
      if count { counters := counters.(events := counters.events + 1); }
      if ev.orderID == "" {
        if ev.status == Rejected { RejectOrder(ev, c.now); }
        return;
      }
      if ev.orderID in finalized { return; }
      match ev.status
      case Accepted =>
        counters := counters.(accepted := counters.accepted + 1);
        accepted := accepted + {ev.orderID};
        var out := state.AttachOrder(ev.parentOrderID, ev.orderID, EventTerms(ev));
        ReplayPending(ev.orderID, c);
      case PartiallyFilled => FillOrder(ev, c);
      case Filled => FillOrder(ev, c);
      case Cancelled =>
        if ev.orderID !in accepted {
          BufferExecution(ev, c.now);
          return;
        }
        state.ReleaseOrder(ev.orderID);
        FinalizeOrder(ev.orderID, c.now);
      case Rejected => RejectOrder(ev, c.now);
      case OtherStatus(_) =>
    }

    /** A partial or complete fill; a fill the ledger refuses ends the handling. */
    method FillOrder(ev: ExecutionEvent, c: Clock)
      requires ev.IsFill() && ev.orderID != ""
      modifies this, state
      ensures View() == HandleFill(old(View()), ev, c)
    {
      if ev.orderID !in accepted {
        BufferExecution(ev, c.now);
        return;
      }
      counters := counters.(filled := counters.filled + 1);
      if ev.filledSize > 0.0 {
        var out := state.ApplyFill(EventFill(ev), c.today);
        if out.Fail? { return; }
      }
      if ev.status == Filled {
        state.ReleaseOrder(ev.orderID);
        FinalizeOrder(ev.orderID, c.now);
      }
    }

    method RejectOrder(ev: ExecutionEvent, now: int)
      modifies this, state
      ensures View() == HandleReject(old(View()), ev, now)
    {
      counters := counters.(rejected := counters.rejected + 1);
      if ev.parentOrderID != "" {
        var released := state.ReleaseProvisional(ev.parentOrderID);
      }
      if ev.orderID == "" { return; }
      if ev.orderID in accepted { state.ReleaseOrder(ev.orderID); }
      FinalizeOrder(ev.orderID, now);
    }

    /** Takes the kept events of an order out of the map and handles them in arrival order. */
    method ReplayPending(id: string, c: Clock)
      requires PendingDeferrable(View())
      modifies this, state
      ensures View() == if id !in old(pending) then old(View())
                        else Replay(old(View()).(pending := old(pending) - {id}), old(pending)[id].events, c)
      decreases 0, 1
    {
      if id !in pending { return; }
      var events := pending[id].events;
      pending := pending - {id};
      ghost var goal := Replay(View(), events, c);
      var i := 0;
      while i < |events|
        invariant i <= |events| && PendingDeferrable(View())
        invariant Replay(View(), events[i..], c) == goal
      {
        assert Deferrable(events[i]) && events[i..][1..] == events[i + 1..];
        HandleExecutionEvent(events[i], false, c);
        i := i + 1;
      }
    }

    /** Kept events that are given up are counted: kept plus expired stays the same. */
    method CleanupExpiredPending(now: int)
      modifies this`pending, this`counters
      ensures View().(counters := old(counters)) == ExpirePending(old(View()), now, ttls.pending)
      ensures counters == old(counters).(expired := counters.expired)
      ensures counters.expired as real + Sum(pending, KeptEvents())
                == old(counters.expired as real + Sum(pending, KeptEvents()))
    {
      if ttls.pending <= 0 { return; }
      ghost var start, fewer := pending, counters.expired as real + Sum(pending, KeptEvents());
      ghost var live := (p: Pending) => now - p.firstSeen < ttls.pending;
      var todo := pending.Keys;
      while todo != {}
        invariant todo <= start.Keys
        invariant pending == Swept(start, todo, live)
        invariant counters == old(counters).(expired := counters.expired)
        invariant counters.expired as real + Sum(pending, KeptEvents()) == fewer
        decreases |todo|
      {
        hide Swept;
        var id :| id in todo;
        SweepOne(start, todo, live, id);
        var p := pending[id];
        if now - p.firstSeen >= ttls.pending {
          SumDrop(pending, KeptEvents(), id);
          pending := pending - {id};
          counters := counters.(expired := counters.expired + |p.events|);
        }
        todo := todo - {id};
      }
    }

    method CleanupExpiredFinalized(now: int)
      modifies this`finalized, this`finalizedAt
      ensures View() == ExpireFinalized(old(View()), now, ttls.finalized)
    {
      if ttls.finalized <= 0 { return; }
      ghost var start := finalizedAt;
      ghost var live := (at: int) => now - at < ttls.finalized;
      var todo := finalizedAt.Keys;
      while todo != {}
        invariant todo <= start.Keys
        invariant finalizedAt == Swept(start, todo, live)
        invariant finalized == old(finalized) - (start.Keys - finalizedAt.Keys)
        decreases |todo|
      {
        hide Swept;
        var id :| id in todo;
        SweepOne(start, todo, live, id);
        if now - finalizedAt[id] >= ttls.finalized {
          finalizedAt := finalizedAt - {id};
          finalized := finalized - {id};
        }
        todo := todo - {id};
      }
      assert finalizedAt == ExpireFinalized(old(View()), now, ttls.finalized).finalizedAt;
    }

    method CleanupTracking(now: int) returns (drops: seq<string>)
      requires Tracking(View())
      modifies this, state
      ensures Lists(drops, ExpiredAt(old(state.View()), now))
      ensures View().(counters := old(counters)) == Tick(old(View()), now, ttls, drops)
      ensures Tracking(View())
    {
      ghost var start := View();
      CleanupExpiredPending(now);
      CleanupExpiredFinalized(now);
      drops := state.CleanupExpiredProvisional(now);
      TickTracks(start, now, ttls, drops);
      TrackingIsLocal(Tick(start, now, ttls, drops), View());
    }
  }
}

/** The object client: the cache and the flights of reads, updated in place. Each region that holds a
    lock is one method, tied to the cache action or the protocol step it stands for; the network call
    lies between Enter and Settle. */
module ObjectClient {
  import opened Wrappers
  import opened EntityKeys
  import opened Recency
  import opened CacheModel
  import opened CacheTheorems
  import opened CacheStore
  import opened Projection
  import opened FlightKeys
  import Protocol
  import Writers

  type Model = State<Value>

  /** The flight table, by leader, after call c entered under key. */
  function Entered(leaders: map<string, nat>, key: string, c: nat): map<string, nat> {
    if key in leaders || |leaders| >= Protocol.MAX_FLIGHTS then leaders else leaders[key := c]
  }

  /** Call c of the protocol is a read about to enter this flight table. */
  predicate Entering(s: Protocol.State, leaders: map<string, nat>, c: nat, key: string) {
    && s.cache.Shape() && s.flights == leaders && Protocol.Enabled(s, Protocol.EnterFlights(c))
    && s.calls[c].request.IsStateRead() && s.calls[c].key == key
  }

  /** Call c of the protocol is a leader about to land. */
  predicate Landing(s: Protocol.State, leaders: map<string, nat>, c: nat, key: string) {
    && s.cache.Shape() && s.flights == leaders && Protocol.Enabled(s, Protocol.Land(c))
    && s.calls[c].leads && s.calls[c].key == key
  }

  /** A read in flight; done is closed once the outcome is set. leader is the call it belongs to. */
  class Flight {
    var done: bool
    var outcome: Option<Protocol.Outcome>
    ghost const leader: nat

    constructor (ghost leader: nat)
      ensures !done && outcome == None && this.leader == leader
    {
      done, outcome := false, None;
      this.leader := leader;
    }
  }

  class ObjectClient {
    const cache: Cache<Value>
    var flights: map<string, Flight>

    ghost predicate Valid()
      reads this, cache, flights.Values
    {
      && cache.Valid()
      && |flights| <= Protocol.MAX_FLIGHTS
      && (forall k :: k in flights ==> !flights[k].done)
      && (forall j, k :: j in flights && k in flights && j != k ==> flights[j] != flights[k])
    }

    ghost function Leaders(): map<string, nat>
      reads this
    {
      map k | k in flights :: flights[k].leader
    }

    constructor (config: Config)
      requires config.Valid()
      ensures Valid() && fresh(cache) && flights == map[]
    {
      var c := new Cache<Value>(config);
      cache := c;
      flights := map[];
    }

    // ---------- Regions under the cache's lock ----------

    /** A gateway update, before it reaches any handler. */
    method Update(update: Update, now: nat)
      requires cache.Valid()
      modifies cache
      ensures cache.Valid() && cache.Model() == Act(old(cache.Model()), Change(ApplyUpdate(update)), now)
    {
      cache.Bump();
      Writers.Handle(cache, update, ApplyUpdate(update), now);
    }

    method ClearCache(now: nat)
      requires cache.Valid()
      modifies cache
      ensures cache.Valid() && forall kind: Kind :: kind < KINDS ==> cache.Model().lists[kind] == []
      ensures cache.Model().revision == old(cache.Model()).revision + 1
    {
      cache.Clear(now);
    }

    /** Evicts one object of a manager's, and fences the reads in flight even if it was not cached. */
    method InvalidateOne(m: Manager, id: nat, now: nat)
      requires cache.Valid()
      modifies cache
      ensures cache.Valid()
      ensures forall k ::
        cache.Model().Lookup(k) == if id != 0 && m.Matches(k) && k.id == id then None else old(cache.Model()).Lookup(k)
      ensures cache.Model().revision == old(cache.Model()).revision + if id == 0 then 0 else 1
    {
      if id == 0 {
        return;
      }
      cache.Invalidate((k: Key) => m.Matches(k) && k.id == id, now);
    }

    method ClearManager(m: Manager, now: nat)
      requires cache.Valid()
      modifies cache
      ensures cache.Valid()
      ensures forall k :: cache.Model().Lookup(k) == if m.Matches(k) then None else old(cache.Model()).Lookup(k)
      ensures cache.Model().revision == old(cache.Model()).revision + 1
    {
      cache.Invalidate((k: Key) => m.Matches(k), now);
    }

    /** A manager's lookup: nothing for an id it cannot name. */
    method Get(m: Manager, id: nat, now: nat) returns (r: Option<Entry<Value>>)
      requires cache.Valid()
      modifies cache
      ensures cache.Valid()
      ensures !m.Names(id) ==> r == None && cache.Model() == old(cache.Model())
      ensures m.Names(id) ==> cache.Model() == Act(old(cache.Model()), Action.Get(m.KeyOf(id)), now)
      ensures m.Names(id) ==> r == var was := old(cache.Model()).Lookup(m.KeyOf(id));
        if was.Some? && was.value.Live(now) then was else None
    {
      if !m.Names(id) {
        return None;
      }
      r := cache.Get(m.KeyOf(id), now);
    }

    // ---------- Call, region by region ----------

    /** A read joins the flight under its key, or leads one of its own while there is room. */
    method Enter(key: string, ghost c: nat, ghost s: Protocol.State)
      returns (pending: Option<Flight>, own: Option<Flight>)
      requires Valid() && Entering(s, Leaders(), c, key)
      modifies this
      ensures Valid()
      ensures key in old(flights) ==> pending == Some(old(flights)[key]) && own == None && flights == old(flights)
      ensures key !in old(flights) && |old(flights)| < Protocol.MAX_FLIGHTS ==>
        pending == None && own.Some? && fresh(own.value) && flights == old(flights)[key := own.value]
      ensures key !in old(flights) && |old(flights)| >= Protocol.MAX_FLIGHTS ==>
        pending == None && own == None && flights == old(flights)
      ensures Leaders() == Protocol.Next(s, Protocol.EnterFlights(c)).flights
    {
      pending, own := None, None;
      assert Leaders().Keys == flights.Keys;
      if key in flights {
        pending := Some(flights[key]);
      } else if |flights| < Protocol.MAX_FLIGHTS {
        var flight := new Flight(c);
        own := Some(flight);
        flights := flights[key := flight];
      }
      assert Leaders() == Entered(old(Leaders()), key, c);
    }

    /** A read's result, observed unless an event, mutation or invalidation came between. */
    method AcceptRead(request: Request, captured: nat, result: Result, now: nat)
      requires cache.Valid()
      modifies cache
      ensures cache.Valid()
      ensures cache.Model() == Act(old(cache.Model()), Accept(captured, ObserveResult(request, result)), now)
    {
      if cache.revision == captured {
        Writers.Observe(cache, request, result, now);
      }
    }

    /** A mutation's result: observed, or evicted if anything came between. */
    method MutateCache(request: Request, captured: nat, result: Result, now: nat)
      requires cache.Valid()
      modifies cache
      ensures cache.Valid()
      ensures cache.Model() == Act(old(cache.Model()),
        Mutate(captured, ObserveMutation(request, result), InvalidateMutation(request, result)), now)
    {
      var current := cache.revision;
      cache.Bump();
      if current == captured {
        Writers.Mutated(cache, request, result, now);
      } else {
        Writers.Raced(cache, request, result, now);
      }
    }

    /** The outcome observed: a failed call leaves the cache alone. */
    method Settle(request: Request, captured: nat, outcome: Protocol.Outcome, now: nat)
      requires cache.Valid()
      modifies cache
      ensures cache.Valid()
      ensures cache.Model() ==
        if outcome.Failed? then old(cache.Model())
        else Act(old(cache.Model()), Observed(request, captured, outcome.result), now)
    {
      if outcome.Ok? {
        if request.IsStateRead() {
          AcceptRead(request, captured, outcome.result, now);
        } else {
          MutateCache(request, captured, outcome.result, now);
        }
      }
    }

    /** The leader publishes its outcome, removes exactly its own flight and wakes its followers. */
    method Land(key: string, own: Flight, outcome: Protocol.Outcome, ghost s: Protocol.State)
      requires Valid() && key in flights && flights[key] == own && Landing(s, Leaders(), own.leader, key)
      modifies this, own
      ensures Valid() && flights == old(flights) - {key}
      ensures own.done && own.outcome == Some(outcome)
      ensures forall k :: k in flights ==> flights[k] != own
      ensures Leaders() == Protocol.Next(s, Protocol.Land(own.leader)).flights
    {
      own.outcome := Some(outcome);
      flights := flights - {key};
      own.done := true;
    }
  }
}

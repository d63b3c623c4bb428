/** The two module maps of src/lib/apiResponseCache.ts and the stretches of code between two awaits that
  * change them and send commands to Redis, each tied to a step of ApiCache. */
module ApiCacheProcess {
  import opened Options
  import opened ApiCache

  class Process {
    var now: int                              // Date.now()
    var redis: map<string, Version>           // what Redis holds
    var inFlightLoads: map<string, nat>
    var lastInvalidatedAt: map<string, int>
    var calls: Calls                          // the locals of the calls in flight
    ghost var writes: nat

    constructor ()
      ensures State() == START
    {
      now, redis, inFlightLoads, lastInvalidatedAt := 0, map[], map[], map[];
      calls, writes := Calls(map[], map[], map[]), 0;
    }

    ghost function State(): World
      reads this
    {
      World(now, writes, redis, lastInvalidatedAt, calls.deletes, calls.loads, inFlightLoads, calls.callers)
    }

    method MarkInvalidated(prefix: string)
      modifies this`lastInvalidatedAt
      ensures lastInvalidatedAt == old(lastInvalidatedAt)[prefix := now]
    {
      lastInvalidatedAt := lastInvalidatedAt[prefix := now];
    }

    method LatestInvalidationFor(key: string) returns (latest: int)
      ensures forall t :: latest >= t <==> InvalidatedSince(lastInvalidatedAt, key, t)
    {
      latest := 0;
      var todo := lastInvalidatedAt.Keys;
      while todo != {}
        invariant todo <= lastInvalidatedAt.Keys && latest >= 0
        invariant latest == 0 || exists p :: p in lastInvalidatedAt && p <= key && lastInvalidatedAt[p] == latest
        invariant forall p :: p in lastInvalidatedAt && p <= key && p !in todo ==> lastInvalidatedAt[p] <= latest
        decreases |todo|
      {
        var prefix :| prefix in todo;
        var at := lastInvalidatedAt[prefix];
        if prefix <= key && at > latest {
          latest := at;
        }
        todo := todo - {prefix};
      }
    }

    /** `deleteByPrefix` up to its first SCAN. */
    method BeginDelete(d: nat, prefix: string, write: nat)
      requires d !in calls.deletes && write <= writes
      modifies this
      ensures State() == Step(old(State()), Invalidate(d, prefix, write))
    {
      MarkInvalidated(prefix);
      calls := calls.(deletes := calls.deletes[d := Delete(prefix, write, Matching(redis, prefix), {}, false)]);
    }

    /** The keys of one SCAN reply are deleted. */
    method DeleteScanned(d: nat)
      requires d in calls.deletes
      modifies this
      ensures State() == Step(old(State()), DeleteBatch(d))
    {
      var keys := calls.deletes[d].batch;
      redis := redis - keys;
      var left := Forget(calls.deletes, keys);
      calls := calls.(deletes := left[d := left[d].(batch := {})]);
    }

    /** `getOrSetApiCache` up to the reply of its GET. */
    method EnterGet(c: nat, key: string)
      requires c !in calls.callers
      modifies this
      ensures State() == Step(old(State()), Enter(c, key))
    {
      var reply := if key in redis then Some(redis[key]) else None;
      calls := calls.(callers := calls.callers[c := Caller(key, now, Asking(reply))]);
    }

    /** From the reply of GET to the next await: a hit, a shared load, or a load of its own. */
    method AfterReply(c: nat, lost: bool)
      requires c in calls.callers && calls.callers[c].phase.Asking? && c !in calls.loads
      modifies this
      ensures State() == Step(old(State()), AfterGet(c, lost))
    {
      var caller := calls.callers[c];
      if caller.phase.reply.Some? && !lost {
        calls := calls.(callers := calls.callers[c := caller.(phase := Hit(caller.phase.reply.value))]);
      } else if caller.key in inFlightLoads {
        calls := calls.(callers := calls.callers[c := caller.(phase := Joined(inFlightLoads[caller.key]))]);
      } else {
        calls := calls.(callers := calls.callers[c := caller.(phase := Loading)],
                        loads := calls.loads[c := Load(caller.key, caller.startedAt, None, false, false)]);
        inFlightLoads := inFlightLoads[caller.key := c];
      }
    }

    /** From the loader's return to the sending of SET. */
    method AfterLoader(l: nat, written: bool)
      requires l in calls.loads && calls.loads[l].read.Some? && !calls.loads[l].done
      modifies this
      ensures State() == Step(old(State()), LoaderReturns(l, written))
    {
      var load := calls.loads[l];
      var latest := LatestInvalidationFor(load.key);
      var invalidatedDuringLoad := latest >= load.startedAt;
      calls := calls.(loads := calls.loads[l := load.(done := true)]);
      if !invalidatedDuringLoad && written {
        redis := redis[load.key := load.read.value];
      }
    }

    /** The `finally` of the caller that started the load. */
    method CleanupLoad(l: nat)
      requires l in calls.loads && calls.loads[l].done && !calls.loads[l].cleaned
      modifies this
      ensures State() == Step(old(State()), Cleanup(l))
    {
      inFlightLoads := inFlightLoads - {calls.loads[l].key};
      calls := calls.(loads := calls.loads[l := calls.loads[l].(cleaned := true)]);
    }
  }

  datatype Calls = Calls(deletes: map<nat, Delete>, loads: map<nat, Load>, callers: map<nat, Caller>)
}

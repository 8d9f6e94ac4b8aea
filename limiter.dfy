/**
 * The concurrency tracker's client: Take and Release, and the batched
 * takeMulti / releaseMulti they wrap, issuing commands to the store through
 * a pipeline. Each method is proved against the functions of ConcurrencySpec.
 */
module Concurrency {
  import opened Wrappers
  import opened Numbers
  import opened Redis
  import opened ConcurrencySpec

  /** One queued script invocation of takeMulti, remembered for the result loop. */
  datatype TakeEntry = TakeEntry(key: string, limit: ConcurrencyLimit, cmd: Command)

  /** The entries the first loop of takeMulti remembers when it visits the keys in the order `ord`. */
  function Entries(b: Batch, ord: seq<string>): (es: seq<TakeEntry>)
    requires forall k :: k in ord ==> k in b.limits
    ensures |es| == |ord|
  {
    seq(|ord|, j requires 0 <= j < |ord| => TakeEntry(ord[j], b.limits[ord[j]], b.CommandFor(ord[j])))
  }

  /** Visiting one more key remembers its entry after the others. */
  lemma EntriesSnoc(b: Batch, ord: seq<string>, k: string)
    requires forall k' :: k' in ord ==> k' in b.limits
    requires k in b.limits
    ensures Entries(b, ord + [k]) == Entries(b, ord) + [TakeEntry(k, b.limits[k], b.CommandFor(k))]
  {
    assert forall j :: 0 <= j < |ord| ==> (ord + [k])[j] == ord[j];
  }

  class Limiter {
    const store: Store
    /** Prefix of the hashes releaseMulti deletes from. */
    const concurrentPrefix: string
    /** Prefix of the hashes takeMulti invokes the script on (the package-level default). */
    const keyPrefix: string

    constructor (store: Store, concurrentPrefix: string, keyPrefix: string)
      ensures this.store == store && this.concurrentPrefix == concurrentPrefix && this.keyPrefix == keyPrefix
    {
      this.store := store;
      this.concurrentPrefix := concurrentPrefix;
      this.keyPrefix := keyPrefix;
    }

    /**
     * Acquires a slot of one key: a one-key takeMulti at depth 0, answering
     * that key's result, or the zero result together with the error.
     */
    method Take(key: string, requestID: string, limit: ConcurrencyLimit) returns (out: Return<ConcurrencyResult>)
      modifies store
      ensures var run := Retry(store.oracle, false, 0, old(|store.trips|), old(store.loads));
        && |store.trips| == old(|store.trips|) + run.trips
        && store.loads == old(store.loads) + run.loads
      ensures store.trips[..old(|store.trips|)] == old(store.trips)
      ensures forall i :: old(|store.trips|) <= i < |store.trips| ==>
        store.trips[i] == [Exists(ConcurrencyTake), TakeCommand(keyPrefix, requestID, key, limit)]
      ensures out == TakeOne(store.oracle, keyPrefix, requestID, key, limit, old(|store.trips|), old(store.loads))
    {
      var limits := map[key := limit];
      assert key in limits;
      ghost var ord;
      var rv;
      rv, ord := TakeMulti(requestID, limits, 0);
      forall i | old(|store.trips|) <= i < |store.trips|
        ensures store.trips[i] == [Exists(ConcurrencyTake), TakeCommand(keyPrefix, requestID, key, limit)]
      {
        SingleTakeRound(store.trips[i], keyPrefix, requestID, key, limit);
      }
      if Retry(store.oracle, false, 0, old(|store.trips|), old(store.loads)).verdict.Confirmed? {
        SingletonOrdering(ord, key);
      }
      match rv
      case Panic =>
        out := Panic;
      case Return(m, err) =>
        if err.Some? {
          out := Return(ZeroResult, err);
        } else {
          out := Return(if key in m then m[key] else ZeroResult, None);
        }
    }

    /** Releases the slot of one key: a one-key releaseMulti, whose error it returns. */
    method Release(key: string, requestID: string, limit: ConcurrencyLimit) returns (err: Option<Error>)
      modifies store
      ensures store.trips == old(store.trips) + [[ReleaseCommand(concurrentPrefix, requestID, key)]]
      ensures store.loads == old(store.loads)
      ensures var e := store.oracle.execError(old(|store.trips|));
        && (err.None? <==> e.None?)
        && (e.Some? ==> err == Some(StoreError(e.value)))
    {
      var limits := map[key := limit];
      assert key in limits && |limits| != 0;
      err := ReleaseMulti(requestID, limits);
      var round := store.trips[|store.trips| - 1];
      ghost var ord :| IsOrdering(ord, {key}) && round == Batch(concurrentPrefix, requestID, limits).ReleaseCommands(ord);
      SingletonOrdering(ord, key);
      assert round == [ReleaseCommand(concurrentPrefix, requestID, key)];
      assert store.trips == old(store.trips) + [round];
    }

    /**
     * Deletes the request's slot from the hash of every key in one round
     * trip; with no keys, no round trip is made.
     */
    method ReleaseMulti(requestID: string, limits: map<string, ConcurrencyLimit>) returns (err: Option<Error>)
      modifies store
      ensures store.loads == old(store.loads)
      ensures |limits| == 0 ==> store.trips == old(store.trips) && err == None
      ensures |limits| != 0 ==>
        && |store.trips| == old(|store.trips|) + 1
        && store.trips[..old(|store.trips|)] == old(store.trips)
        && IsReleaseRound(store.trips[old(|store.trips|)], Batch(concurrentPrefix, requestID, limits))
        && var e := store.oracle.execError(old(|store.trips|));
           && (err.None? <==> e.None?)
           && (e.Some? ==> err == Some(StoreError(e.value)))
    {
      var b := Batch(concurrentPrefix, requestID, limits);
      var pl := new Pipeline(store);
      var rest := limits.Keys;
      ghost var ord: seq<string> := [];
      while rest != {}
        invariant Visiting(ord, rest, limits.Keys)
        invariant pl.cmds == b.ReleaseCommands(ord)
        invariant store.trips == old(store.trips) && store.loads == old(store.loads)
        decreases |rest|
      {
        var key :| key in rest;
        var storeKey := concurrentPrefix + key;
        VisitStep(ord, rest, limits.Keys, key);
        pl.Queue(HDel(storeKey, requestID));
        ord := ord + [key];
        rest := rest - {key};
      }
      if pl.Len() == 0 {
        assert limits.Keys == {};
        return None;
      }
      VisitDone(ord, limits.Keys);
      assert ord[0] in limits && limits != map[];
      var e := pl.Exec();
      err := StoreFailure(e);
    }

    /**
     * Attempts one slot per key in a single round trip, preceded by a
     * presence check of the script; when the script is missing it reloads
     * and retries at depth + 1, failing once depth exceeds the ceiling.
     * When a round trip is confirmed, `ord` is the order of that round
     * trip's invocations; otherwise it is some sequence of the batch's keys.
     */
    method TakeMulti(requestID: string, limits: map<string, ConcurrencyLimit>, depth: int)
      returns (out: Return<map<string, ConcurrencyResult>>, ghost ord: seq<string>)
      modifies store
      decreases Attempts(depth), 2
      ensures TakeMultiDone(store.oracle, Batch(keyPrefix, requestID, limits), depth,
                            old(store.trips), old(store.loads), store.trips, store.loads, out, ord)
    {
      ghost var o, trip0, load0 := store.oracle, |store.trips|, store.loads;
      if depth > MaxDepth {
        StopDecides(o, |limits| == 0, depth, trip0, load0, Run(Fail(TooManyRetries), 0, 0));
        return Return(map[], Some(TooManyRetries)), [];
      }
      var b := Batch(keyPrefix, requestID, limits);
      var pl := new Pipeline(store);
      pl.Queue(Exists(ConcurrencyTake));
      var results;
      results, ord := QueueTakes(pl, b);
      if |results| == 0 {
        assert limits.Keys == {};
        StopDecides(o, |limits| == 0, depth, trip0, load0, Run(NothingToDo, 0, 0));
        return Return(map[], None), ord;
      }
      assert ord[0] in limits && limits != map[];
      out, ord := SendTakes(pl, b, results, ord, depth);
    }

    /**
     * The rest of one attempt of takeMulti, once its pipeline holds the
     * presence check and one invocation per key in the order `queued`: the
     * round trip, the presence check, and either the reload and the retry
     * at depth + 1 or the result loop.
     */
    method SendTakes(pl: Pipeline, b: Batch, results: seq<TakeEntry>, ghost queued: seq<string>, depth: int)
      returns (out: Return<map<string, ConcurrencyResult>>, ghost ord: seq<string>)
      requires pl.store == store && b.keyPrefix == keyPrefix
      requires depth <= MaxDepth && |b.limits| != 0
      requires IsOrdering(queued, b.limits.Keys)
      requires pl.cmds == [Exists(ConcurrencyTake)] + b.Commands(queued)
      requires results == Entries(b, queued)
      modifies store
      decreases Attempts(depth), 1
      ensures TakeMultiDone(store.oracle, b, depth, old(store.trips), old(store.loads), store.trips, store.loads, out, ord)
    {
      ghost var o, before, load0 := store.oracle, store.trips, store.loads;
      ord := queued;
      var trip := |store.trips|;
      var err := pl.Exec();
      ghost var round := store.trips[trip];
      assert IsTakeRound(round, b);
      assert store.trips == before + [round];
      if err.Some? {
        out := Return(map[], Some(StoreError(err.value)));
        StopDone(o, b, depth, before, load0, round, store.loads, out, ord, Run(Fail(StoreError(err.value)), 1, 0));
        return;
      }
      var present := store.oracle.presence(trip);
      if present.Err? {
        out := Return(map[], Some(StoreError(present.error)));
        StopDone(o, b, depth, before, load0, round, store.loads, out, ord, Run(Fail(StoreError(present.error)), 1, 0));
        return;
      }
      if |present.value| != 1 {
        out := Return(map[], Some(ScriptFailed));
        StopDone(o, b, depth, before, load0, round, store.loads, out, ord, Run(Fail(ScriptFailed), 1, 0));
        return;
      }
      if !present.value[0] {
        assert present.value == [false];
        out, ord := ReloadAndRetry(b, depth, before, round);
        return;
      }
      out := CollectResults(trip, b, results, ord);
      StopDone(o, b, depth, before, load0, round, store.loads, out, ord, Run(Confirmed(trip), 1, 0));
    }

    /**
     * The script was missing from the round trip `round` just made: load
     * the scripts again and, when that succeeds, retry at depth + 1.
     */
    method ReloadAndRetry(b: Batch, depth: int, ghost before: seq<seq<Command>>, ghost round: seq<Command>)
      returns (out: Return<map<string, ConcurrencyResult>>, ghost ord: seq<string>)
      requires b.keyPrefix == keyPrefix && depth <= MaxDepth && |b.limits| != 0
      requires store.trips == before + [round] && IsTakeRound(round, b)
      requires store.oracle.execError(|before|).None? && store.oracle.presence(|before|) == Ok([false])
      modifies store
      decreases Attempts(depth), 0
      ensures TakeMultiDone(store.oracle, b, depth, before, old(store.loads), store.trips, store.loads, out, ord)
    {
      ghost var o, load0 := store.oracle, store.loads;
      var loadErr := store.LoadScripts();
      if loadErr.Some? {
        out, ord := Return(map[], Some(StoreError(loadErr.value))), [];
        StopDone(o, b, depth, before, load0, round, store.loads, out, ord, Run(Fail(StoreError(loadErr.value)), 1, 1));
        return;
      }
      out, ord := TakeMulti(b.requestID, b.limits, depth + 1);
      RetryDone(o, b, depth, before, load0, round, store.trips, store.loads, out, ord);
    }

    /**
     * The first loop of takeMulti: one script invocation per key, on the
     * key's store hash, with the request id, the limit's maximum and its
     * effective request period, queued in the order the keys are visited.
     */
    method QueueTakes(pl: Pipeline, b: Batch) returns (results: seq<TakeEntry>, ghost ord: seq<string>)
      modifies pl
      ensures IsOrdering(ord, b.limits.Keys)
      ensures results == Entries(b, ord)
      ensures pl.cmds == old(pl.cmds) + b.Commands(ord)
    {
      results, ord := [], [];
      var rest := b.limits.Keys;
      while rest != {}
        invariant Visiting(ord, rest, b.limits.Keys)
        invariant results == Entries(b, ord)
        invariant pl.cmds == old(pl.cmds) + b.Commands(ord)
        decreases |rest|
      {
        var key :| key in rest;
        var limit := b.limits[key];
        var reqPeriod := limit.requestPeriod;
        if reqPeriod == 0 {
          reqPeriod := 60;
        }
        var values := [AStr(b.requestID), AInt(limit.max), AInt(reqPeriod)];
        var storeKey := b.keyPrefix + key;
        var cmd := EvalSha(ConcurrencyTake, [storeKey], values);
        assert cmd == b.CommandFor(key);
        b.CommandsSnoc(ord, key);
        EntriesSnoc(b, ord, key);
        VisitStep(ord, rest, b.limits.Keys, key);
        pl.Queue(cmd);
        results := results + [TakeEntry(key, limit, cmd)];
        ord := ord + [key];
        rest := rest - {key};
      }
      VisitDone(ord, b.limits.Keys);
    }

    /**
     * The result loop of takeMulti over the replies of round trip `trip`:
     * the outcome the specification gives for the keys in the order queued.
     */
    method CollectResults(trip: nat, b: Batch, results: seq<TakeEntry>, ghost ord: seq<string>)
      returns (out: Return<map<string, ConcurrencyResult>>)
      requires forall k :: k in ord ==> k in b.limits
      requires results == Entries(b, ord)
      ensures out == Collect(store.oracle, trip, b, map[], ord)
    {
      var rv: map<string, ConcurrencyResult> := map[];
      var i := 0;
      while i < |results|
        invariant 0 <= i <= |results|
        invariant Collect(store.oracle, trip, b, map[], ord) == Collect(store.oracle, trip, b, rv, ord[i..])
      {
        var result := results[i];
        assert ord[i..][0] == ord[i] && ord[i..][1..] == ord[i + 1..];
        match ReadReply(store.oracle.invoke(trip, result.cmd))
        case Refused(e) =>
          return Return(map[], Some(StoreError(e)));
        case Malformed =>
          return Panic;
        case Fine(ok, current) =>
          var cr := ConcurrencyResult("", result.limit, ok, current, Wrap64(result.limit.max - current), 0);
          if !ok {
            cr := cr.(retryAfter := 1 * Second);
          }
          rv := rv[result.key := cr];
        i := i + 1;
      }
      assert ord[i..] == [];
      return Return(rv, None);
    }
  }
}

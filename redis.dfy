/**
 * The shared store as the concurrency tracker sees it through its client:
 * commands queued on a pipeline, one round trip per Exec, and the replies
 * of the store. The store itself is an oracle: which round trips fail,
 * what the presence check answers, what the server-side script returns and
 * whether reloading the scripts succeeds are all inputs of the model.
 */
module Redis {
  import opened Wrappers
  import opened Numbers

  /** A reply value handed back for a script invocation. */
  datatype Value = VNil | VBool(b: bool) | VInt(i: Int64) | VStr(s: string) | VList(items: seq<Value>)

  /** A positional script argument. */
  datatype Arg = AStr(s: string) | AInt(i: int)

  /** The server-side procedures the tracker invokes. */
  datatype Script = ConcurrencyTake

  datatype Command =
    | Exists(script: Script)
    | EvalSha(script: Script, keys: seq<string>, args: seq<Arg>)
    | HDel(key: string, field: string)

  /**
   * The behaviour of the store, indexed by the number of round trips (and of
   * script loads) made before the one in question.
   */
  datatype Oracle = Oracle(
    execError: nat -> Option<string>,
    presence: nat -> Result<seq<bool>, string>,
    invoke: (nat, Command) -> Result<Value, string>,
    loadError: nat -> Option<string>)

  /** The store connection: a log of the round trips and script loads made through it. */
  class Store {
    const oracle: Oracle
    var trips: seq<seq<Command>>
    var loads: nat

    constructor (oracle: Oracle)
      ensures this.oracle == oracle && trips == [] && loads == 0
    {
      this.oracle := oracle;
      trips := [];
      loads := 0;
    }

    /** (Re)registers the server-side scripts; an opaque call that may fail. */
    method LoadScripts() returns (err: Option<string>)
      modifies this
      ensures trips == old(trips) && loads == old(loads) + 1
      ensures err == oracle.loadError(old(loads))
    {
      err := oracle.loadError(loads);
      loads := loads + 1;
    }
  }

  /** A client-side queue of commands sent to the store in one round trip. */
  class Pipeline {
    const store: Store
    var cmds: seq<Command>

    constructor (store: Store)
      ensures this.store == store && cmds == []
    {
      this.store := store;
      cmds := [];
    }

    function Len(): nat
      reads this
    {
      |cmds|
    }

    method Queue(c: Command)
      modifies this
      ensures cmds == old(cmds) + [c]
    {
      cmds := cmds + [c];
    }

    /** Sends every queued command in one round trip; the error is that of the round trip as a whole. */
    method Exec() returns (err: Option<string>)
      modifies store
      ensures store.trips == old(store.trips) + [cmds] && store.loads == old(store.loads)
      ensures err == store.oracle.execError(|old(store.trips)|)
    {
      err := store.oracle.execError(|store.trips|);
      store.trips := store.trips + [cmds];
    }
  }
}

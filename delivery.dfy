/** The two effects the monitors have on the outside world, abstracted: a JSON cache file
    that is read whole and replaced whole, and a channel alerts are sent to, where any one
    send may fail. */
module Delivery {
  import opened Wrappers

  /** The cache file. `snapshot` is `None` when the file is missing or cannot be read. */
  class Store<V> {
    var snapshot: Option<map<string, V>>

    constructor (initial: Option<map<string, V>>)
      ensures snapshot == initial
    {
      snapshot := initial;
    }

    /** Reading the cache: a missing or unreadable file reads as the empty map. */
    method Load() returns (m: map<string, V>)
      ensures snapshot.Some? ==> m == snapshot.value
      ensures snapshot.None? ==> m == map[]
    {
      m := if snapshot.Some? then snapshot.value else map[];
    }

    /** Writing the cache replaces its whole content. */
    method Save(m: map<string, V>)
      modifies this
      ensures snapshot == Some(m)
    {
      snapshot := Some(m);
    }
  }

  /** The alert channel. Every send is recorded in `attempts`; a send of a message in
      `failsOn` raises, the others are delivered. */
  class AlertSink<M(==)> {
    var attempts: seq<M>
    var delivered: seq<M>
    const failsOn: set<M>

    constructor (failsOn: set<M>)
      ensures attempts == [] && delivered == [] && this.failsOn == failsOn
    {
      attempts := [];
      delivered := [];
      this.failsOn := failsOn;
    }

    method Deliver(m: M) returns (ok: bool)
      modifies this
      ensures ok <==> m !in failsOn
      ensures attempts == old(attempts) + [m]
      ensures delivered == if ok then old(delivered) + [m] else old(delivered)
    {
      ok := m !in failsOn;
      attempts := attempts + [m];
      if ok {
        delivered := delivered + [m];
      }
    }
  }
}

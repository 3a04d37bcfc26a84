/**
 * The key-value store as seen through the calls the page makes: only a
 * `KvSet` call changes it, and each write replaces the entry under its key.
 */
module Store {
  import opened Records

  /** The effect of one call on the store. */
  function Apply(kv: map<string, Record>, c: Call): map<string, Record>
  {
    if c.KvSet? then kv[c.key := c.value] else kv
  }

  /** The keys that the calls write. */
  function WrittenKeys(calls: seq<Call>): set<string>
    decreases |calls|
  {
    if calls == [] then {}
    else (if calls[0].KvSet? then {calls[0].key} else {}) + WrittenKeys(calls[1..])
  }

  /** The store after the calls, made in order, starting from `kv`. */
  function Replay(kv: map<string, Record>, calls: seq<Call>): (r: map<string, Record>)
    ensures r.Keys == kv.Keys + WrittenKeys(calls)
    decreases |calls|
  {
    if calls == [] then kv else Replay(Apply(kv, calls[0]), calls[1..])
  }

  /** Replaying two batches of calls one after the other is replaying them joined. */
  lemma {:induction false} ReplayAppend(kv: map<string, Record>, a: seq<Call>, b: seq<Call>)
    ensures Replay(kv, a + b) == Replay(Replay(kv, a), b)
    decreases |a|
  {
    if a == [] {
      assert a + b == b;
    } else {
      assert (a + b)[1..] == a[1..] + b;
      ReplayAppend(Apply(kv, a[0]), a[1..], b);
    }
  }

  /** The keys written by two batches joined are those written by either. */
  lemma {:induction false} WrittenKeysAppend(a: seq<Call>, b: seq<Call>)
    ensures WrittenKeys(a + b) == WrittenKeys(a) + WrittenKeys(b)
    decreases |a|
  {
    if a == [] {
      assert a + b == b;
    } else {
      assert (a + b)[1..] == a[1..] + b;
      WrittenKeysAppend(a[1..], b);
    }
  }

  /** Calls none of which is a store write leave the store as it is. */
  lemma {:induction false} ReplayWithoutWrites(kv: map<string, Record>, calls: seq<Call>)
    requires forall i :: 0 <= i < |calls| ==> !calls[i].KvSet?
    ensures Replay(kv, calls) == kv
    ensures WrittenKeys(calls) == {}
    decreases |calls|
  {
    if calls != [] {
      ReplayWithoutWrites(Apply(kv, calls[0]), calls[1..]);
    }
  }
}

/** A category tally: one of the `map[string]int` counters of the nozzle.
    Go reads a missing key as 0, so `Count` is the observable value of a key;
    `Increment` is the `m[k] = m[k] + 1` idiom of the ingest loop. */
module Tally {

  type Tally = map<string, nat>

  /** The count Go observes for `key` (its zero value when absent). */
  function Count(t: Tally, key: string): (c: nat)
  {
    if key in t then t[key] else 0
  }

  /** `after` is `before` with exactly one more observation of `key`:
      `key` is present, its count went up by one, and no other key changed. */
  ghost predicate Bumped(before: Tally, after: Tally, key: string)
  {
    && after.Keys == before.Keys + {key}
    && Count(after, key) == Count(before, key) + 1
    && forall k :: k != key ==> Count(after, k) == Count(before, k)
  }

  /** Every key present has been observed at least once: keys appear lazily,
      on their first observation, and are never written with 0. */
  ghost predicate Positive(t: Tally)
  {
    forall k :: k in t ==> t[k] >= 1
  }

  /** No count decreased and every key present before is still present. */
  ghost predicate Grows(before: Tally, after: Tally)
  {
    && before.Keys <= after.Keys
    && forall k :: Count(before, k) <= Count(after, k)
  }

  /** Records one observation of `key`, the empty string included. */
  function Increment(t: Tally, key: string): (r: Tally)
    ensures key in r && Count(r, key) == Count(t, key) + 1
  {
    t[key := Count(t, key) + 1]
  }

  /** An increment touches no other key, never lowers a count nor drops a
      key, and keeps every present count positive. */
  lemma IncrementBumps(t: Tally, key: string)
    ensures Bumped(t, Increment(t, key), key)
    ensures Grows(t, Increment(t, key))
    ensures Positive(t) ==> Positive(Increment(t, key))
  {
  }

  /** Total number of observations held by a tally. */
  ghost function Sum(t: Tally): (total: nat)
    decreases |t.Keys|
  {
    if t.Keys == {} then 0
    else
      var k :| k in t.Keys;
      assert |(t - {k}).Keys| < |t.Keys| by {
        assert (t - {k}).Keys == t.Keys - {k};
      }
      t[k] + Sum(t - {k})
  }

  /** Sum does not depend on which key is taken out first. */
  lemma {:induction false} SumRemove(t: Tally, key: string)
    requires key in t
    ensures Sum(t) == t[key] + Sum(t - {key})
    decreases |t.Keys|
  {
    var k :| k in t.Keys && Sum(t) == t[k] + Sum(t - {k});
    if k != key {
      var rest := t - {k} - {key};
      assert (t - {k}).Keys == t.Keys - {k};
      assert (t - {key}).Keys == t.Keys - {key};
      SumRemove(t - {k}, key);
      assert t - {k} - {key} == rest;
      SumRemove(t - {key}, k);
      assert t - {key} - {k} == rest;
    }
  }

  /** One increment adds exactly one observation to the total. */
  lemma {:induction false} SumIncrement(t: Tally, key: string)
    ensures Sum(Increment(t, key)) == Sum(t) + 1
  {
    var r := Increment(t, key);
    SumRemove(r, key);
    if key in t {
      SumRemove(t, key);
      assert r - {key} == t - {key};
    } else {
      assert r - {key} == t;
    }
  }
}

/** The blob store as a map from keys to sizes, and the bytes it holds. */
module Storage {
  /** Total bytes stored. */
  ghost function Total(blobs: map<string, nat>): nat {
    if blobs == map[] then 0
    else
      var k :| k in blobs;
      blobs[k] + Total(blobs - {k})
  }

  /** The total does not depend on the order in which keys are counted. */
  lemma {:induction false} TotalRemove(blobs: map<string, nat>, k: string)
    requires k in blobs
    ensures Total(blobs) == blobs[k] + Total(blobs - {k})
    decreases |blobs|
  {
    var j :| j in blobs && Total(blobs) == blobs[j] + Total(blobs - {j});
    if j != k {
      TotalRemove(blobs - {j}, k);
      TotalRemove(blobs - {k}, j);
      assert blobs - {j} - {k} == blobs - {k} - {j};
    }
  }
}

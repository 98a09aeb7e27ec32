/** The embedded Elasticsearch engine, reduced to the handle the adapter
    keeps and the outcome of the one health query it issues. */
module Engine {
  import opened SearchConfig

  /** Aggregate cluster health, from least to most severe. */
  datatype Health = Green | Yellow | Red

  /** A cluster-health request: the status to wait for and the timeout. */
  datatype HealthRequest = HealthRequest(waitFor: Health, timeoutSeconds: nat)

  /** What a health query came to: a status, or an exception of any kind
      (timeout, transport failure, a node that is not up). */
  datatype ProbeOutcome = Completed(status: Health) | Failed

  /** A started node. `closed` is the engine's closed flag; `closeCalls`
      counts the calls of Close made on this handle. */
  class Node {
    const settings: map<SettingKey, string>
    var closed: bool
    ghost var closeCalls: nat

    /** `NodeBuilder.nodeBuilder().settings(s).build().start()` when it
        returns normally: a live node started with exactly these settings. */
    constructor Start(s: map<SettingKey, string>)
      ensures settings == s && !closed && closeCalls == 0
    {
      settings := s;
      closed := false;
      closeCalls := 0;
    }

    /** `node.isClosed()`. */
    function IsClosed(): bool
      reads this
    {
      closed
    }

    /** Releases the node's resources; afterwards the handle reports closed. */
    method Close()
      modifies this
      ensures closed && closeCalls == old(closeCalls) + 1
    {
      closed := true;
      closeCalls := closeCalls + 1;
    }
  }
}

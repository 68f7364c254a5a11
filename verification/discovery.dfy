/** Peer discovery with a quorum and a bounded retry (`DiscoverLocalPeers`). */
module Discovery {
  import opened Fabric

  /** What successive `GetPeers` calls observe: the listed views first, one per
      attempt, and the settled view for every attempt after them. A network
      that does not change is `Feed([], view)`. */
  datatype Feed = Feed(early: seq<Reply<seq<Peer>>>, settled: Reply<seq<Peer>>)

  /** The view of attempt `k` (counting from 0). */
  function View(f: Feed, k: nat): Reply<seq<Peer>>
  {
    if k < |f.early| then f.early[k] else f.settled
  }

  /** A view that answered, but with fewer peers than expected: the transient
      condition the retry policy retries. */
  predicate Short(v: Reply<seq<Peer>>, expected: int)
  {
    v.Answer? && |v.value| < expected
  }

  /** A view that meets the quorum. */
  predicate Enough(v: Reply<seq<Peer>>, expected: int)
  {
    v.Answer? && |v.value| >= expected
  }

  datatype DiscoveryError = ContextFailed | PeersQueryFailed | QuorumNotReached(found: nat)

  /** The result of discovery and the number of `GetPeers` calls it made. */
  datatype Discovered =
    | Found(peers: seq<Peer>, attempts: nat)
    | NotFound(reason: DiscoveryError, attempts: nat)

  /** The retry invoker from attempt `k` on: a query error is not transient and
      is returned at once; a shortfall is retried while the budget of
      `retries` further attempts lasts. */
  function Invoke(f: Feed, expected: int, k: nat, retries: nat): (d: Discovered)
    requires k <= retries
    decreases retries - k
    ensures k < d.attempts <= retries + 1
    ensures forall j :: k <= j < d.attempts - 1 ==> Short(View(f, j), expected)
    ensures d.Found? ==> Enough(View(f, d.attempts - 1), expected) && View(f, d.attempts - 1).value == d.peers
    ensures d.NotFound? ==> d.reason != ContextFailed
    ensures d.NotFound? && d.reason == PeersQueryFailed ==> View(f, d.attempts - 1).QueryError?
    ensures d.NotFound? && d.reason.QuorumNotReached? ==>
              d.attempts == retries + 1 && Short(View(f, retries), expected)
              && d.reason.found == |View(f, retries).value|
  {
    match View(f, k)
    case QueryError => NotFound(PeersQueryFailed, k + 1)
    case Answer(ps) =>
      if |ps| < expected then
        if k < retries then Invoke(f, expected, k + 1, retries)
        else NotFound(QuorumNotReached(|ps|), k + 1)
      else Found(ps, k + 1)
  }

  /** `DiscoverLocalPeers(ctxProvider, expectedPeers)`: create the local
      context, then ask the local discovery service for peers under the retry
      policy. It never hands back fewer than `expected` peers, and what it hands
      back is one whole view, not a merge of several. */
  function DiscoverLocalPeers(contextOk: bool, f: Feed, expected: int, retries: nat): (d: Discovered)
    ensures !contextOk ==> d == NotFound(ContextFailed, 0)
    ensures d.attempts <= retries + 1
    ensures contextOk ==> 1 <= d.attempts
    ensures d.Found? ==> |d.peers| >= expected && View(f, d.attempts - 1) == Answer(d.peers)
    ensures forall j :: 0 <= j < d.attempts - 1 ==> Short(View(f, j), expected)
    ensures d.NotFound? && d.reason == PeersQueryFailed ==> View(f, d.attempts - 1).QueryError?
    ensures d.NotFound? && d.reason.QuorumNotReached? ==>
              d.attempts == retries + 1 && forall j :: 0 <= j <= retries ==> Short(View(f, j), expected)
  {
    if !contextOk then NotFound(ContextFailed, 0) else Invoke(f, expected, 0, retries)
  }

  /** The SDK calls discovery issues: the context, then one `GetPeers` per attempt. */
  function DiscoveryCalls(d: Discovered): (t: seq<Call>)
    ensures ReadOnly(t)
  {
    [NewLocalContext] + seq(d.attempts, _ => GetPeers)
  }

  /** Discovery succeeds exactly when some attempt within the budget meets the
      quorum and every attempt before it was a shortfall. */
  lemma DiscoverySucceedsIff(contextOk: bool, f: Feed, expected: int, retries: nat)
    ensures DiscoverLocalPeers(contextOk, f, expected, retries).Found?
        <==> contextOk && exists k :: 0 <= k <= retries && Enough(View(f, k), expected)
                                      && forall j :: 0 <= j < k ==> Short(View(f, j), expected)
  {
  }

  /** Against a network that does not change, retries make no difference:
      discovery succeeds iff the one view answers with at least `expected`
      peers, and then returns that view. */
  lemma StaticDiscovery(contextOk: bool, view: Reply<seq<Peer>>, expected: int, retries: nat)
    ensures var d := DiscoverLocalPeers(contextOk, Feed([], view), expected, retries);
            (d.Found? <==> contextOk && Enough(view, expected))
            && (d.Found? ==> d.peers == view.value && d.attempts == 1)
  {
    var d := DiscoverLocalPeers(contextOk, Feed([], view), expected, retries);
    if contextOk && Enough(view, expected) {
      assert View(Feed([], view), 0) == view;
    }
    if d.Found? {
      assert View(Feed([], view), 0) == view;
      assert View(Feed([], view), d.attempts - 1) == view;
    }
  }
}

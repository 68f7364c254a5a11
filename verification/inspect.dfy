/** The inspection helpers of setup2.go: argument encoding, the chaincode and
    channel lookups, and the target-peer selection. */
module Inspect {
  import opened Bytes
  import opened Fabric

  /** `GetParams`: the byte form of every argument, in order. A Go nil slice
      and an empty slice are both the empty sequence here. */
  method GetParams(args: seq<Str>) returns (res: seq<seq<byte>>)
    ensures |res| == |args|
    ensures forall i :: 0 <= i < |args| ==> res[i] == args[i]
    ensures args == [] ==> res == []
  {
    res := [];
    for i := 0 to |args|
      invariant |res| == i
      invariant forall j :: 0 <= j < i ==> res[j] == args[j]
    {
      res := res + [args[i]];
    }
  }

  /** An entry matches when both its name and its version are the requested
      ones; any other field of the entry is not compared. */
  predicate Matches(c: CCInfo, name: Str, version: Str)
  {
    c.name == name && c.version == version
  }

  ghost predicate Lists(entries: seq<CCInfo>, name: Str, version: Str)
  {
    exists i :: 0 <= i < |entries| && Matches(entries[i], name, version)
  }

  /** The scan over a chaincode list that stops at the first match. */
  function FindCC(entries: seq<CCInfo>, name: Str, version: Str): (found: bool)
    ensures found <==> Lists(entries, name, version)
  {
    if |entries| == 0 then false
    else if Matches(entries[0], name, version) then true
    else
      var rest := FindCC(entries[1..], name, version);
      assert Lists(entries[1..], name, version) ==> Lists(entries, name, version) by {
        if Lists(entries[1..], name, version) {
          var i :| 0 <= i < |entries| - 1 && Matches(entries[1..][i], name, version);
          assert Matches(entries[i + 1], name, version);
        }
      }
      rest
  }

  /** The entries a peer's installed-chaincode query contributes: a failed
      query contributes none. */
  function InstalledEntries(p: Peer): seq<CCInfo>
  {
    if p.installed.Answer? then p.installed.value else []
  }

  /** `isCCInstalled`, with a failed per-peer query read as "not found on that
      peer". Every peer is queried; the answer is the conjunction over all of
      them, so it is true for no peers and false as soon as one peer lacks the
      exact name and version. */
  function IsCCInstalled(name: Str, version: Str, peers: seq<Peer>): (installed: bool)
    ensures installed <==> forall k :: 0 <= k < |peers| ==> Lists(InstalledEntries(peers[k]), name, version)
  {
    if |peers| == 0 then true
    else
      var found := FindCC(InstalledEntries(peers[0]), name, version);
      var rest := IsCCInstalled(name, version, peers[1..]);
      assert forall k :: 1 <= k < |peers| ==> peers[k] == peers[1..][k - 1];
      found && rest
  }

  /** The query calls `isCCInstalled` issues: one per peer, in order. */
  function InstalledQueries(peers: seq<Peer>): (t: seq<Call>)
    ensures ReadOnly(t)
  {
    seq(|peers|, k requires 0 <= k < |peers| => QueryInstalledChaincodes(peers[k].url))
  }

  /** The installed check split over two groups of peers is the conjunction of
      the two checks. */
  lemma InstalledSplits(name: Str, version: Str, a: seq<Peer>, b: seq<Peer>)
    ensures IsCCInstalled(name, version, a + b) <==> IsCCInstalled(name, version, a) && IsCCInstalled(name, version, b)
  {
    var ab := a + b;
    assert forall k :: 0 <= k < |a| ==> ab[k] == a[k];
    assert forall k :: 0 <= k < |b| ==> ab[|a| + k] == b[k];
  }

  /** A peer whose query fails, or whose list has no exact match (for instance
      only the same name under another version), makes the check false. */
  lemma OnePeerMissingIsEnough(name: Str, version: Str, peers: seq<Peer>, k: nat)
    requires k < |peers|
    requires forall i :: 0 <= i < |InstalledEntries(peers[k])| ==> InstalledEntries(peers[k])[i].version != version
    ensures !IsCCInstalled(name, version, peers)
  {
    assert !Lists(InstalledEntries(peers[k]), name, version);
  }

  /** How `isCCInstalled` evaluates as written. */
  datatype Eval<+T> = Value(v: T) | NilDereference

  /** `isCCInstalled` exactly as written: the query error is printed but not
      branched on, so a failed query leaves the response nil and reading its
      chaincode list dereferences nil. Peers before the failing one have been
      queried; the loop does not get past it. */
  function IsCCInstalledAsWritten(name: Str, version: Str, peers: seq<Peer>): (r: Eval<bool>)
    ensures r.NilDereference? <==> exists k :: 0 <= k < |peers| && peers[k].installed.QueryError?
    ensures r.Value? ==> (r.v <==> forall k :: 0 <= k < |peers| ==> Lists(peers[k].installed.value, name, version))
  {
    if |peers| == 0 then Value(true)
    else if peers[0].installed.QueryError? then NilDereference
    else
      var found := FindCC(peers[0].installed.value, name, version);
      var rest := IsCCInstalledAsWritten(name, version, peers[1..]);
      assert forall k :: 1 <= k < |peers| ==> peers[k] == peers[1..][k - 1];
      match rest
      case NilDereference => NilDereference
      case Value(b) => Value(found && b)
  }

  /** The failing input: one discovered peer whose installed-chaincode query
      errs. As written the check dereferences nil; read as "not found on that
      peer" the check is false. */
  lemma InstalledQueryErrorDereferencesNil(name: Str, version: Str, url: Str)
    ensures var peers := [Peer(url, QueryError, Answer([]))];
            IsCCInstalledAsWritten(name, version, peers) == NilDereference
            && !IsCCInstalled(name, version, peers)
  {
    var peers := [Peer(url, QueryError, Answer([]))];
    assert peers[0].installed.QueryError?;
  }

  /** Whenever every query answers, the corrected check and the code as written
      agree. */
  lemma AsWrittenAgreesWithoutQueryErrors(name: Str, version: Str, peers: seq<Peer>)
    requires forall k :: 0 <= k < |peers| ==> peers[k].installed.Answer?
    ensures IsCCInstalledAsWritten(name, version, peers) == Value(IsCCInstalled(name, version, peers))
  {
    assert forall k :: 0 <= k < |peers| ==> InstalledEntries(peers[k]) == peers[k].installed.value;
  }

  /** `isCCInstantiated`: a failed channel query is an error (never a silent
      false); otherwise the answer is whether some instantiated entry has
      exactly the requested name and version. */
  function IsCCInstantiated(instantiated: Reply<seq<CCInfo>>, name: Str, version: Str): (r: Reply<bool>)
    ensures instantiated.QueryError? <==> r.QueryError?
    ensures instantiated.Answer? ==> (r.value <==> Lists(instantiated.value, name, version))
  {
    match instantiated
    case QueryError => QueryError
    case Answer(entries) => Answer(FindCC(entries, name, version))
  }

  /** The same name under another version does not count as instantiated. */
  lemma OtherVersionIsNotInstantiated(entries: seq<CCInfo>, name: Str, version: Str, other: Str, path: Str)
    requires other != version
    requires forall i :: 0 <= i < |entries| ==> entries[i].name != name
    ensures IsCCInstantiated(Answer(entries + [CCInfo(name, other, path)]), name, version) == Answer(false)
  {
    var all := entries + [CCInfo(name, other, path)];
    assert forall i :: 0 <= i < |entries| ==> all[i] == entries[i];
  }

  /** The first-match scan over a channel list. */
  function FindChannel(ids: seq<Str>, channelID: Str): (found: bool)
    ensures found <==> channelID in ids
  {
    if |ids| == 0 then false
    else if ids[0] == channelID then true
    else
      var rest := FindChannel(ids[1..], channelID);
      assert ids == [ids[0]] + ids[1..];
      rest
  }

  /** `IsJoinedChannel`: the peer's channel query error is passed on;
      otherwise the answer is whether the channel id is in the peer's list. */
  function IsJoinedChannel(channelID: Str, peer: Peer): (r: Reply<bool>)
    ensures peer.channels.QueryError? <==> r.QueryError?
    ensures peer.channels.Answer? ==> (r.value <==> channelID in peer.channels.value)
  {
    match peer.channels
    case QueryError => QueryError
    case Answer(ids) => Answer(FindChannel(ids, channelID))
  }

  /** The reference for `OrgTargetPeers`: the peer lists of the known orgs,
      concatenated in the order the orgs are given. An org is known when its
      lower-cased name is a key of the organizations map. */
  function Targets(orgs: seq<Str>, organizations: map<Str, seq<Str>>): seq<Str>
  {
    if |orgs| == 0 then []
    else
      var last := orgs[|orgs| - 1];
      var key := ToLower(last);
      Targets(orgs[..|orgs| - 1], organizations)
        + (if key in organizations then organizations[key] else [])
  }

  /** `OrgTargetPeers`: an error reading the organizations section is passed
      on; otherwise the known orgs' peers are appended org by org. */
  method OrgTargetPeers(orgs: seq<Str>, organizations: Reply<map<Str, seq<Str>>>) returns (r: Reply<seq<Str>>)
    ensures organizations.QueryError? ==> r.QueryError?
    ensures organizations.Answer? ==> r == Answer(Targets(orgs, organizations.value))
  {
    if organizations.QueryError? {
      return QueryError;
    }
    var m := organizations.value;
    var peers: seq<Str> := [];
    for i := 0 to |orgs|
      invariant peers == Targets(orgs[..i], m)
    {
      var key := ToLower(orgs[i]);
      assert orgs[..i + 1][..i] == orgs[..i];
      if key !in m {
        continue;
      }
      peers := peers + m[key];
    }
    assert orgs[..|orgs|] == orgs;
    return Answer(peers);
  }

  /** Selecting targets for two lists of orgs is selecting for each in turn. */
  lemma {:induction false} TargetsAppend(a: seq<Str>, b: seq<Str>, organizations: map<Str, seq<Str>>)
    ensures Targets(a + b, organizations) == Targets(a, organizations) + Targets(b, organizations)
    decreases |b|
  {
    if |b| == 0 {
      assert a + b == a;
    } else {
      var b' := b[..|b| - 1];
      assert (a + b)[..|a + b| - 1] == a + b';
      assert (a + b)[|a + b| - 1] == b[|b| - 1];
      TargetsAppend(a, b', organizations);
    }
  }

  /** Every selected peer belongs to the list of some known org among `orgs`. */
  lemma {:induction false} TargetsAreSound(orgs: seq<Str>, organizations: map<Str, seq<Str>>, p: Str)
    requires p in Targets(orgs, organizations)
    ensures exists i :: 0 <= i < |orgs| && ToLower(orgs[i]) in organizations && p in organizations[ToLower(orgs[i])]
  {
    var n := |orgs|;
    var key := ToLower(orgs[n - 1]);
    var init := orgs[..n - 1];
    if p in Targets(init, organizations) {
      TargetsAreSound(init, organizations, p);
      var i :| 0 <= i < |init| && ToLower(init[i]) in organizations && p in organizations[ToLower(init[i])];
      assert orgs[i] == init[i];
    } else {
      assert key in organizations && p in organizations[key];
    }
  }

  /** Every peer of every known org among `orgs` is selected; unknown orgs
      are skipped without contributing anything. */
  lemma {:induction false} TargetsAreComplete(orgs: seq<Str>, organizations: map<Str, seq<Str>>, i: nat, p: Str)
    requires i < |orgs|
    requires ToLower(orgs[i]) in organizations && p in organizations[ToLower(orgs[i])]
    ensures p in Targets(orgs, organizations)
  {
    var n := |orgs|;
    if i < n - 1 {
      TargetsAreComplete(orgs[..n - 1], organizations, i, p);
    }
  }
}

/**
 * The platform sync orchestrator of src/pages/Sync.tsx: a fixed list of six
 * platforms, each with a connection flag and a last-sync text, the
 * `syncing` and `connecting` flags, and one notification slot. Every backend
 * answer is an input of the handler that awaits it.
 */
module Sync {
  import opened Util
  import opened Http
  import opened Notice

  datatype Platform = Platform(id: string, name: string, connected: bool, lastSync: string)

  /** The list the page starts from. */
  const InitialPlatforms: seq<Platform> := [
    Platform("woocommerce", "WooCommerce", false, "Never"),
    Platform("shopify", "Shopify", false, "Never"),
    Platform("ubereats", "Uber Eats", false, "Never"),
    Platform("prestashop", "PrestaShop", false, "Never"),
    Platform("odoo", "Odoo", false, "Never"),
    Platform("deliveroo", "Deliveroo", false, "Never")
  ]

  /** One entry of the `/api/platforms/status` answer. */
  datatype StatusEntry = StatusEntry(connected: bool, lastSync: Option<string>)

  type StatusMap = map<string, StatusEntry>

  /** The body of a connect, disconnect or sync answer. */
  datatype ActionBody = ActionBody(success: bool, message: Option<string>)

  /**
   * The outcome recorded for one platform of a batch: the `ConnectResult`
   * of connect-all (whose `error` is `detail`) and the `SyncResult` of
   * sync-all (whose `message` is `detail`).
   */
  datatype PlatformResult = PlatformResult(platform: string, success: bool, detail: Option<string>)

  const StatusRequest := Request(GET, "/api/platforms/status")
  const FetchFailed := Notification(Error, "Failed to fetch platform status")

  // ---------------------------------------------------------------------
  // Shape of the list: ids, names and positions.

  /** `ps` and `qs` hold the same platforms (ids and names) in the same order. */
  predicate SameShape(ps: seq<Platform>, qs: seq<Platform>)
  {
    |ps| == |qs| && forall i :: 0 <= i < |ps| ==> ps[i].id == qs[i].id && ps[i].name == qs[i].name
  }

  predicate DistinctIds(ps: seq<Platform>)
  {
    forall i, j :: 0 <= i < j < |ps| ==> ps[i].id != ps[j].id
  }

  predicate DistinctNames(ps: seq<Platform>)
  {
    forall i, j :: 0 <= i < j < |ps| ==> ps[i].name != ps[j].name
  }

  /** The initial list has six platforms, all disconnected and never synced, with distinct ids and names. */
  lemma InitialPlatformsWellFormed()
    ensures |InitialPlatforms| == 6
    ensures DistinctIds(InitialPlatforms) && DistinctNames(InitialPlatforms)
    ensures forall i :: 0 <= i < 6 ==> !InitialPlatforms[i].connected && InitialPlatforms[i].lastSync == "Never"
  {
  }

  /** A list shaped like the initial one keeps its distinct ids and names. */
  lemma {:induction false} ShapeKeepsDistinct(ps: seq<Platform>)
    requires SameShape(ps, InitialPlatforms)
    ensures DistinctIds(ps) && DistinctNames(ps)
  {
    InitialPlatformsWellFormed();
    forall i, j | 0 <= i < j < |ps| ensures ps[i].id != ps[j].id && ps[i].name != ps[j].name {
      assert ps[i].id == InitialPlatforms[i].id && ps[j].id == InitialPlatforms[j].id;
      assert ps[i].name == InitialPlatforms[i].name && ps[j].name == InitialPlatforms[j].name;
    }
  }

  // ---------------------------------------------------------------------
  // checkConnections: merging the status answer into the list.

  /** `response.data[id]?.connected || false` */
  function ConnectedIn(status: StatusMap, id: string): (r: bool)
    ensures r ==> id in status
    ensures id in status ==> (r <==> status[id].connected)
  {
    id in status && status[id].connected
  }

  /** `response.data[id]?.lastSync || 'Never'` */
  function LastSyncIn(status: StatusMap, id: string): (r: string)
    ensures r != ""
    ensures id in status && Truthy(status[id].lastSync) ==> r == status[id].lastSync.value
    ensures !(id in status && Truthy(status[id].lastSync)) ==> r == "Never"
  {
    if id in status then OptOrElse(status[id].lastSync, "Never") else "Never"
  }

  /** The `platforms.map(...)` of checkConnections. */
  function MergeStatus(ps: seq<Platform>, status: StatusMap): (r: seq<Platform>)
    ensures SameShape(r, ps)
    ensures forall i :: 0 <= i < |ps| ==>
      r[i].connected == ConnectedIn(status, ps[i].id) && r[i].lastSync == LastSyncIn(status, ps[i].id)
  {
    if ps == [] then []
    else
      var p := ps[0].(connected := ConnectedIn(status, ps[0].id), lastSync := LastSyncIn(status, ps[0].id));
      [p] + MergeStatus(ps[1..], status)
  }

  /**
   * The merge reads nothing of the old connection flags and last-sync
   * texts: two lists of the same shape merge to the same list. So it does
   * not matter which snapshot of the list a refresh merges into.
   */
  lemma MergeDependsOnlyOnShape(ps: seq<Platform>, qs: seq<Platform>, status: StatusMap)
    requires SameShape(ps, qs)
    ensures MergeStatus(ps, status) == MergeStatus(qs, status)
  {
    var a, b := MergeStatus(ps, status), MergeStatus(qs, status);
    assert forall i :: 0 <= i < |a| ==> a[i] == b[i];
  }

  /** Refreshing twice with the same answer is refreshing once. */
  lemma MergeIdempotent(ps: seq<Platform>, status: StatusMap)
    ensures MergeStatus(MergeStatus(ps, status), status) == MergeStatus(ps, status)
  {
    MergeDependsOnlyOnShape(MergeStatus(ps, status), ps, status);
  }

  /** A platform absent from the answer falls back to disconnected and "Never". */
  lemma MergeDefaults(ps: seq<Platform>, status: StatusMap, i: nat)
    requires i < |ps| && ps[i].id !in status
    ensures !MergeStatus(ps, status)[i].connected && MergeStatus(ps, status)[i].lastSync == "Never"
  {
  }

  // ---------------------------------------------------------------------
  // handleToggleConnection.

  /** `platforms.find(p => p.id === id)`, as the index of the first match. */
  function FindIndex(ps: seq<Platform>, id: string): (r: Option<nat>)
    ensures r.None? <==> forall i :: 0 <= i < |ps| ==> ps[i].id != id
    ensures r.Some? ==> r.value < |ps| && ps[r.value].id == id
    ensures r.Some? ==> forall j :: 0 <= j < r.value ==> ps[j].id != id
  {
    if ps == [] then None
    else if ps[0].id == id then Some(0)
    else match FindIndex(ps[1..], id)
      case None => None
      case Some(k) => Some(k + 1)
  }

  /** The endpoint a toggle calls: "disconnect" for a connected platform, else "connect". */
  function ActionName(connected: bool): (a: string)
    ensures a == "disconnect" <==> connected
    ensures a == "connect" <==> !connected
  {
    if connected then "disconnect" else "connect"
  }

  function ActionRequest(id: string, action: string): Request
  {
    Request(POST, "/api/platforms/" + id + "/" + action)
  }

  /** The `platforms.map(...)` of a successful toggle. */
  function FlipConnected(ps: seq<Platform>, id: string): (r: seq<Platform>)
    ensures SameShape(r, ps)
    ensures forall i :: 0 <= i < |ps| ==> r[i].lastSync == ps[i].lastSync
    ensures forall i :: 0 <= i < |ps| ==> r[i].connected == (if ps[i].id == id then !ps[i].connected else ps[i].connected)
  {
    if ps == [] then []
    else [if ps[0].id == id then ps[0].(connected := !ps[0].connected) else ps[0]] + FlipConnected(ps[1..], id)
  }

  /** Two successful toggles of one platform give back the list. */
  lemma FlipTwice(ps: seq<Platform>, id: string)
    ensures FlipConnected(FlipConnected(ps, id), id) == ps
  {
    var r := FlipConnected(FlipConnected(ps, id), id);
    assert forall i :: 0 <= i < |ps| ==> r[i] == ps[i];
  }

  /** With distinct ids, a toggle changes the one platform it names and no other. */
  lemma FlipOnlyTarget(ps: seq<Platform>, k: nat)
    requires DistinctIds(ps) && k < |ps|
    ensures FlipConnected(ps, ps[k].id)[k] == ps[k].(connected := !ps[k].connected)
    ensures forall i :: 0 <= i < |ps| && i != k ==> FlipConnected(ps, ps[k].id)[i] == ps[i]
  {
    var r := FlipConnected(ps, ps[k].id);
    forall i | 0 <= i < |ps| && i != k ensures r[i] == ps[i] {
      if i < k { assert ps[i].id != ps[k].id; } else { assert ps[k].id != ps[i].id; }
    }
  }

  /** An answer counts as success only when it arrived with `success` set. */
  predicate Succeeded(reply: Reply<ActionBody>)
  {
    reply.Ok? && reply.data.success
  }

  /**
   * `error?.message || 'Unknown error'` where the error is the one thrown
   * for `success=false` (carrying `response.data.message`) or the rejection.
   */
  function FailureDetail(reply: Reply<ActionBody>): (r: string)
    ensures r != ""
    ensures reply.Ok? && reply.data.message.Some? && reply.data.message.value != "" ==>
      r == reply.data.message.value
    ensures reply.Ok? && (reply.data.message.None? || reply.data.message.value == "") ==>
      r == "Unknown error"
    ensures reply.Fail? ==> r == ErrorDetail(reply.error)
  {
    match reply
    case Ok(body) => OptOrElse(body.message, "Unknown error")
    case Fail(e) => ErrorDetail(e)
  }

  // ---------------------------------------------------------------------
  // handleConnectAll and handleSync: the batch over a filtered snapshot.

  /** `ps.filter(p => p.connected == c)` */
  function WithConnection(ps: seq<Platform>, c: bool): (r: seq<Platform>)
    ensures |r| <= |ps|
    ensures forall p :: p in r ==> p in ps && p.connected == c
    ensures r == [] <==> forall i :: 0 <= i < |ps| ==> ps[i].connected != c
  {
    if ps == [] then []
    else (if ps[0].connected == c then [ps[0]] else []) + WithConnection(ps[1..], c)
  }

  function Disconnected(ps: seq<Platform>): seq<Platform>
  {
    WithConnection(ps, false)
  }

  function Connected(ps: seq<Platform>): seq<Platform>
  {
    WithConnection(ps, true)
  }

  lemma {:induction false} WithConnectionConcat(a: seq<Platform>, b: seq<Platform>, c: bool)
    ensures WithConnection(a + b, c) == WithConnection(a, c) + WithConnection(b, c)
    decreases |a|
  {
    if a == [] {
      assert a + b == b;
    } else {
      assert (a + b)[1..] == a[1..] + b;
      WithConnectionConcat(a[1..], b, c);
    }
  }

  lemma {:induction false} WithConnectionDistinctNames(ps: seq<Platform>, c: bool)
    requires DistinctNames(ps)
    ensures DistinctNames(WithConnection(ps, c))
    decreases |ps|
  {
    if ps != [] {
      var tail := ps[1..];
      assert DistinctNames(tail) by {
        forall i, j | 0 <= i < j < |tail| ensures tail[i].name != tail[j].name {
          assert tail[i] == ps[i + 1] && tail[j] == ps[j + 1];
        }
      }
      WithConnectionDistinctNames(tail, c);
      var rest := WithConnection(tail, c);
      forall p | p in rest ensures p.name != ps[0].name {
        var k :| 0 <= k < |tail| && tail[k] == p;
        assert ps[k + 1] == p;
      }
    }
  }

  /** The position of platform `i` within the `c`-filtered snapshot. */
  function Rank(ps: seq<Platform>, i: nat, c: bool): nat
    requires i <= |ps|
  {
    |WithConnection(ps[..i], c)|
  }

  /** Dropping the first platform shifts every later rank by one exactly when that platform is in the snapshot. */
  lemma RankTail(ps: seq<Platform>, i: nat, c: bool)
    requires i < |ps|
    ensures Rank(ps, i + 1, c) == (if ps[0].connected == c then 1 else 0) + Rank(ps[1..], i, c)
  {
    assert ps[..i + 1] == [ps[0]] + ps[1..][..i];
    WithConnectionConcat([ps[0]], ps[1..][..i], c);
  }

  /** Ranks grow along the list: the snapshot keeps the list order, and no platform is taken twice. */
  lemma RankIncreasing(ps: seq<Platform>, i: nat, j: nat, c: bool)
    requires i < j <= |ps| && ps[i].connected == c
    ensures Rank(ps, i, c) < Rank(ps, j, c)
  {
    assert ps[..j] == ps[..i] + ([ps[i]] + ps[i + 1..j]);
    WithConnectionConcat(ps[..i], [ps[i]] + ps[i + 1..j], c);
    WithConnectionConcat([ps[i]], ps[i + 1..j], c);
  }

  /** Every entry of the snapshot is some platform with the flag, at that platform's rank. */
  lemma {:induction false} RankCovers(ps: seq<Platform>, k: nat, c: bool) returns (i: nat)
    requires k < |WithConnection(ps, c)|
    ensures i < |ps| && ps[i].connected == c && Rank(ps, i, c) == k
    decreases |ps|
  {
    var tail := ps[1..];
    if ps[0].connected == c && k == 0 {
      i := 0;
    } else if ps[0].connected == c {
      var t := RankCovers(tail, k - 1, c);
      RankTail(ps, t, c);
      i := t + 1;
    } else {
      var t := RankCovers(tail, k, c);
      RankTail(ps, t, c);
      i := t + 1;
    }
  }

  /** Platform `i` sits in the filtered snapshot at its rank. */
  lemma RankLocates(ps: seq<Platform>, i: nat, c: bool)
    requires i < |ps| && ps[i].connected == c
    ensures Rank(ps, i, c) < |WithConnection(ps, c)|
    ensures WithConnection(ps, c)[Rank(ps, i, c)] == ps[i]
  {
    assert ps == ps[..i] + ([ps[i]] + ps[i + 1..]);
    WithConnectionConcat(ps[..i], [ps[i]] + ps[i + 1..], c);
    WithConnectionConcat([ps[i]], ps[i + 1..], c);
  }

  /** One pass of the connect-all loop body: the result pushed for platform `p`. */
  function ConnectResultOf(p: Platform, reply: Reply<ActionBody>): (r: PlatformResult)
    ensures r.platform == p.name
    ensures r.success <==> Succeeded(reply)
    ensures r.success ==> r.detail.None?
    ensures !r.success ==> r.detail == Some(FailureDetail(reply))
  {
    if Succeeded(reply) then PlatformResult(p.name, true, None)
    else PlatformResult(p.name, false, Some(FailureDetail(reply)))
  }

  /** One pass of the sync-all loop body: the result pushed for platform `p`. */
  function SyncResultOf(p: Platform, reply: Reply<ActionBody>): (r: PlatformResult)
    ensures r.platform == p.name
    ensures r.success <==> Succeeded(reply)
    ensures reply.Ok? ==> r.detail == reply.data.message
    ensures reply.Fail? ==> r.detail == Some(ErrorDetail(reply.error))
  {
    match reply
    case Ok(body) => PlatformResult(p.name, body.success, body.message)
    case Fail(e) => PlatformResult(p.name, false, Some(ErrorDetail(e)))
  }

  /** The `results` array the connect-all loop fills, one entry per call, in call order. */
  function ConnectResults(targets: seq<Platform>, replies: seq<Reply<ActionBody>>): seq<PlatformResult>
    requires |replies| == |targets|
  {
    seq(|targets|, j requires 0 <= j < |targets| => ConnectResultOf(targets[j], replies[j]))
  }

  /** The `results` array the sync-all loop fills. */
  function SyncResults(targets: seq<Platform>, replies: seq<Reply<ActionBody>>): seq<PlatformResult>
    requires |replies| == |targets|
  {
    seq(|targets|, j requires 0 <= j < |targets| => SyncResultOf(targets[j], replies[j]))
  }

  /** The requests a batch issues: one POST per platform of the snapshot, in order. */
  function ActionRequests(targets: seq<Platform>, action: string): seq<Request>
  {
    seq(|targets|, j requires 0 <= j < |targets| => ActionRequest(targets[j].id, action))
  }

  /** `results.filter(r => r.success).length` */
  function SuccessCount(rs: seq<PlatformResult>): (n: nat)
    ensures n <= |rs|
    ensures n == |rs| <==> forall j :: 0 <= j < |rs| ==> rs[j].success
  {
    if rs == [] then 0 else (if rs[0].success then 1 else 0) + SuccessCount(rs[1..])
  }

  /** Counting distributes over concatenation, one per successful result. */
  lemma {:induction false} SuccessCountConcat(a: seq<PlatformResult>, b: seq<PlatformResult>)
    ensures SuccessCount(a + b) == SuccessCount(a) + SuccessCount(b)
    decreases |a|
  {
    if a == [] {
      assert a + b == b;
    } else {
      assert (a + b)[1..] == a[1..] + b;
      SuccessCountConcat(a[1..], b);
    }
  }

  /** A single result counts one exactly when it succeeded. */
  lemma SuccessCountSingle(r: PlatformResult)
    ensures SuccessCount([r]) == if r.success then 1 else 0
  {
    assert [r][1..] == [];
  }

  /** `results.find(r => r.platform === name)` */
  function FindResult(rs: seq<PlatformResult>, name: string): (r: Option<PlatformResult>)
    ensures r.None? <==> forall j :: 0 <= j < |rs| ==> rs[j].platform != name
    ensures r.Some? ==> exists j :: (0 <= j < |rs| && rs[j] == r.value && rs[j].platform == name
      && forall k :: 0 <= k < j ==> rs[k].platform != name)
  {
    if rs == [] then None
    else if rs[0].platform == name then Some(rs[0])
    else
      var r := FindResult(rs[1..], name);
      if r.Some? then
        ghost var j :| 0 <= j < |rs[1..]| && rs[1..][j] == r.value && rs[1..][j].platform == name
          && forall k :: 0 <= k < j ==> rs[1..][k].platform != name;
        assert rs[j + 1] == r.value;
        r
      else r
  }

  /** The `platforms.map(...)` after connect-all: a platform whose result succeeded becomes connected. */
  function ApplyConnectResults(ps: seq<Platform>, rs: seq<PlatformResult>): (r: seq<Platform>)
    ensures SameShape(r, ps)
    ensures forall i :: 0 <= i < |ps| ==> (r[i] ==
      var f := FindResult(rs, ps[i].name); if f.Some? && f.value.success then ps[i].(connected := true) else ps[i])
  {
    if ps == [] then []
    else
      var f := FindResult(rs, ps[0].name);
      [if f.Some? && f.value.success then ps[0].(connected := true) else ps[0]] + ApplyConnectResults(ps[1..], rs)
  }

  /**
   * Connect-all as the source does it, on a list with distinct names: an
   * already connected platform is left as it was; a disconnected platform,
   * which is the `Rank`-th call of the batch, becomes connected exactly when
   * that call's answer was a success, and is otherwise left as it was.
   */
  lemma ConnectAllOutcome(ps: seq<Platform>, replies: seq<Reply<ActionBody>>, i: nat)
    requires DistinctNames(ps)
    requires |replies| == |Disconnected(ps)|
    requires i < |ps|
    ensures var r := ApplyConnectResults(ps, ConnectResults(Disconnected(ps), replies));
      && (ps[i].connected ==> r[i] == ps[i])
      && (!ps[i].connected ==>
            Rank(ps, i, false) < |replies|
            && r[i] == (if Succeeded(replies[Rank(ps, i, false)]) then ps[i].(connected := true) else ps[i]))
  {
    var d := Disconnected(ps);
    var rs := ConnectResults(d, replies);
    WithConnectionDistinctNames(ps, false);
    if ps[i].connected {
      forall j | 0 <= j < |rs| ensures rs[j].platform != ps[i].name {
        assert rs[j].platform == d[j].name;
        assert d[j] in d;
        var k :| 0 <= k < |ps| && ps[k] == d[j];
        assert k != i;
      }
    } else {
      var k := Rank(ps, i, false);
      RankLocates(ps, i, false);
      assert rs[k].platform == ps[i].name;
      var f := FindResult(rs, ps[i].name);
      var j :| 0 <= j < |rs| && rs[j] == f.value && rs[j].platform == ps[i].name
        && forall m :: 0 <= m < j ==> rs[m].platform != ps[i].name;
      assert rs[j].platform == d[j].name;
      assert j == k;
    }
  }

  /**
   * The outcome of connect-all on any list the page can hold: every list
   * of the page's shape has distinct names, so the outcome above applies.
   */
  lemma ConnectAllOutcomeOnPage(ps: seq<Platform>, replies: seq<Reply<ActionBody>>, i: nat)
    requires SameShape(ps, InitialPlatforms)
    requires |replies| == |Disconnected(ps)|
    requires i < |ps|
    ensures var r := ApplyConnectResults(ps, ConnectResults(Disconnected(ps), replies));
      && (ps[i].connected ==> r[i] == ps[i])
      && (!ps[i].connected ==>
            Rank(ps, i, false) < |replies|
            && r[i] == (if Succeeded(replies[Rank(ps, i, false)]) then ps[i].(connected := true) else ps[i]))
  {
    ShapeKeepsDistinct(ps);
    ConnectAllOutcome(ps, replies, i);
  }

  /** Every connect result is a success exactly when its answer was. */
  lemma ConnectResultsSucceed(targets: seq<Platform>, replies: seq<Reply<ActionBody>>)
    requires |replies| == |targets|
    ensures forall j :: 0 <= j < |targets| ==> ConnectResults(targets, replies)[j].success == Succeeded(replies[j])
    ensures forall j :: 0 <= j < |targets| ==> SyncResults(targets, replies)[j].success == Succeeded(replies[j])
  {
  }

  /** The aggregate notification of connect-all. */
  function ConnectSummary(successes: nat, total: nat): (r: Notification)
    ensures r.severity == Success <==> successes == total
    ensures r.severity == Warning <==> successes != total
    ensures r.message == "Connected " + NatToString(successes) + "/" + NatToString(total) + " platforms successfully"
  {
    Notification(if successes == total then Success else Warning,
      "Connected " + NatToString(successes) + "/" + NatToString(total) + " platforms successfully")
  }

  /** The aggregate notification of sync-all. */
  function SyncSummary(successes: nat, total: nat): (r: Notification)
    ensures r.severity == Success <==> successes == total
    ensures r.severity == Error <==> successes != total
    ensures r.message == "Sync completed: " + NatToString(successes) + "/" + NatToString(total) + " platforms synced successfully"
  {
    Notification(if successes == total then Success else Error,
      "Sync completed: " + NatToString(successes) + "/" + NatToString(total) + " platforms synced successfully")
  }

  /**
   * The summary of a batch is a success exactly when every call of the
   * batch succeeded; otherwise connect-all warns and sync-all reports an error.
   */
  lemma SummarySeverity(targets: seq<Platform>, replies: seq<Reply<ActionBody>>)
    requires |replies| == |targets|
    ensures var n := SuccessCount(ConnectResults(targets, replies));
      n <= |targets|
      && (ConnectSummary(n, |targets|).severity == Success <==> forall j :: 0 <= j < |replies| ==> Succeeded(replies[j]))
      && (ConnectSummary(n, |targets|).severity == Warning <==> exists j :: 0 <= j < |replies| && !Succeeded(replies[j]))
    ensures var n := SuccessCount(SyncResults(targets, replies));
      n <= |targets|
      && (SyncSummary(n, |targets|).severity == Success <==> forall j :: 0 <= j < |replies| ==> Succeeded(replies[j]))
      && (SyncSummary(n, |targets|).severity == Error <==> exists j :: 0 <= j < |replies| && !Succeeded(replies[j]))
  {
    ConnectResultsSucceed(targets, replies);
  }

  lemma SameShapeTrans(a: seq<Platform>, b: seq<Platform>, c: seq<Platform>)
    requires SameShape(a, b) && SameShape(b, c)
    ensures SameShape(a, c)
  {
  }

  /**
   * The `for ... of` loop of handleConnectAll: one connect call per
   * platform of the snapshot, in order, each answer turned into one result.
   */
  method RunConnectBatch(targets: seq<Platform>, replies: seq<Reply<ActionBody>>)
    returns (results: seq<PlatformResult>, calls: seq<Request>)
    requires |replies| == |targets|
    ensures results == ConnectResults(targets, replies)
    ensures calls == ActionRequests(targets, "connect")
  {
    results, calls := [], [];
    for i := 0 to |targets|
      invariant results == ConnectResults(targets[..i], replies[..i])
      invariant calls == ActionRequests(targets[..i], "connect")
    {
      calls := calls + [ActionRequest(targets[i].id, "connect")];
      results := results + [ConnectResultOf(targets[i], replies[i])];
    }
    assert targets[..|targets|] == targets && replies[..|targets|] == replies;
  }

  /** The `for ... of` loop of handleSync: one sync call per connected platform, in order. */
  method RunSyncBatch(targets: seq<Platform>, replies: seq<Reply<ActionBody>>)
    returns (results: seq<PlatformResult>, calls: seq<Request>)
    requires |replies| == |targets|
    ensures results == SyncResults(targets, replies)
    ensures calls == ActionRequests(targets, "sync")
  {
    results, calls := [], [];
    for i := 0 to |targets|
      invariant results == SyncResults(targets[..i], replies[..i])
      invariant calls == ActionRequests(targets[..i], "sync")
    {
      calls := calls + [ActionRequest(targets[i].id, "sync")];
      results := results + [SyncResultOf(targets[i], replies[i])];
    }
    assert targets[..|targets|] == targets && replies[..|targets|] == replies;
  }

  // ---------------------------------------------------------------------
  // The page.

  class SyncView {
    var platforms: seq<Platform>
    var syncing: bool
    var connecting: bool
    var notification: Option<Notification>
    /** Every request the page has issued, oldest first. */
    var requests: seq<Request>

    /** The list always holds the six initial platforms, in their order. */
    predicate Valid()
      reads this
    {
      SameShape(platforms, InitialPlatforms)
    }

    constructor ()
      ensures Valid()
      ensures platforms == InitialPlatforms && !syncing && !connecting
      ensures notification == None && requests == []
    {
      platforms := InitialPlatforms;
      syncing, connecting := false, false;
      notification := None;
      requests := [];
    }

    /** checkConnections, with the answer to `GET /api/platforms/status`. */
    method CheckConnections(reply: Reply<StatusMap>)
      requires Valid()
      modifies this
      ensures Valid()
      ensures requests == old(requests) + [StatusRequest]
      ensures reply.Ok? ==> platforms == MergeStatus(old(platforms), reply.data) && notification == old(notification)
      ensures reply.Fail? ==> platforms == old(platforms) && notification == Some(FetchFailed)
      ensures syncing == old(syncing) && connecting == old(connecting)
    {
      requests := requests + [StatusRequest];
      match reply
      case Ok(status) =>
        platforms := MergeStatus(platforms, status);
      case Fail(_) =>
        notification := Some(FetchFailed);
    }

    /** handleToggleConnection, with the answer to the connect or disconnect call. */
    method ToggleConnection(platformId: string, reply: Reply<ActionBody>)
      requires Valid()
      modifies this
      ensures Valid()
      ensures syncing == old(syncing) && connecting == old(connecting)
      ensures FindIndex(old(platforms), platformId).None? ==>
        platforms == old(platforms) && notification == old(notification) && requests == old(requests)
      ensures FindIndex(old(platforms), platformId).Some? ==>
        var p := old(platforms)[FindIndex(old(platforms), platformId).value];
        var action := ActionName(p.connected);
        && requests == old(requests) + [ActionRequest(platformId, action)]
        && (Succeeded(reply) ==>
              platforms == FlipConnected(old(platforms), platformId)
              && notification == Some(Notification(Success, "Successfully " + action + "ed " + p.name)))
        && (!Succeeded(reply) ==>
              platforms == old(platforms)
              && notification == Some(Notification(Error, "Failed to " + action + " " + p.name + ": " + FailureDetail(reply))))
    {
      var k := FindIndex(platforms, platformId);
      if k.None? {
        return;
      }
      var current := platforms[k.value];
      var action := ActionName(current.connected);
      requests := requests + [ActionRequest(platformId, action)];
      if Succeeded(reply) {
        platforms := FlipConnected(platforms, platformId);
        notification := Some(Notification(Success, "Successfully " + action + "ed " + current.name));
      } else {
        notification := Some(Notification(Error, "Failed to " + action + " " + current.name + ": " + FailureDetail(reply)));
      }
    }

    /**
     * handleConnectAll, with one answer per connect call (in call order)
     * and the answer to the status refresh of its `finally`.
     */
    method ConnectAll(replies: seq<Reply<ActionBody>>, refresh: Reply<StatusMap>)
      requires Valid()
      requires |replies| == |Disconnected(platforms)|
      modifies this
      ensures Valid()
      ensures requests == old(requests) + ActionRequests(Disconnected(old(platforms)), "connect") + [StatusRequest]
      ensures var results := ConnectResults(Disconnected(old(platforms)), replies);
        && (refresh.Ok? ==> (platforms == MergeStatus(old(platforms), refresh.data)
              && notification == Some(ConnectSummary(SuccessCount(results), |Disconnected(old(platforms))|))))
        && (refresh.Fail? ==> (platforms == ApplyConnectResults(old(platforms), results)
              && notification == Some(FetchFailed)))
      ensures !connecting && syncing == old(syncing)
      ensures !old(syncing) ==> !RowControlsDisabled()
    {
      ghost var before := platforms;
      connecting := true;
      var targets := Disconnected(platforms);
      var results, calls := RunConnectBatch(targets, replies);
      requests := requests + calls;
      var successCount := SuccessCount(results);
      var updated := ApplyConnectResults(platforms, results);
      SameShapeTrans(updated, platforms, InitialPlatforms);
      if refresh.Ok? {
        MergeDependsOnlyOnShape(updated, before, refresh.data);
      }
      platforms := updated;
      notification := Some(ConnectSummary(successCount, |targets|));
      connecting := false;
      CheckConnections(refresh);
    }

    /**
     * handleSync, with one answer per sync call (in call order) and the
     * answer to the status refresh that follows the summary.
     */
    method SyncAll(replies: seq<Reply<ActionBody>>, refresh: Reply<StatusMap>)
      requires Valid()
      requires |replies| == |Connected(platforms)|
      modifies this
      ensures Valid()
      ensures requests == old(requests) + ActionRequests(Connected(old(platforms)), "sync") + [StatusRequest]
      ensures var results := SyncResults(Connected(old(platforms)), replies);
        && (refresh.Ok? ==> (platforms == MergeStatus(old(platforms), refresh.data)
              && notification == Some(SyncSummary(SuccessCount(results), |Connected(old(platforms))|))))
        && (refresh.Fail? ==> platforms == old(platforms) && notification == Some(FetchFailed))
      ensures !syncing && connecting == old(connecting)
      ensures !old(connecting) ==> !RowControlsDisabled()
    {
      syncing := true;
      var targets := Connected(platforms);
      var results, calls := RunSyncBatch(targets, replies);
      requests := requests + calls;
      var successCount := SuccessCount(results);
      notification := Some(SyncSummary(successCount, |targets|));
      CheckConnections(refresh);
      syncing := false;
    }

    /** The `disabled` rule of each row's settings button and connection switch. */
    function RowControlsDisabled(): (r: bool)
      reads this
      ensures r <==> syncing || connecting
    {
      syncing || connecting
    }

    /** The snackbar's `onClose`. */
    method DismissNotification()
      modifies this`notification
      ensures notification == None
    {
      notification := None;
    }

    /** The `disabled` rule of the Connect All button. */
    function ConnectAllDisabled(): (r: bool)
      reads this
      ensures r <==> connecting || syncing || Disconnected(platforms) == []
    {
      connecting || syncing || forall i :: 0 <= i < |platforms| ==> platforms[i].connected
    }

    /** The `disabled` rule of the Sync All button. */
    function SyncAllDisabled(): (r: bool)
      reads this
      ensures r <==> syncing || connecting || Connected(platforms) == []
    {
      syncing || connecting || !(exists i :: 0 <= i < |platforms| && platforms[i].connected)
    }
  }
}

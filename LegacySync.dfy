/**
 * The older synchronisation page of src/pages/Sync.jsx: one "sync all"
 * action, one import per platform, and the status and history panels,
 * served by the sync client of src/services/syncService.js. Paths are
 * relative to the API base URL.
 */
module LegacySync {
  import opened Util
  import opened Http
  import opened Notice
  import Sync

  datatype LegacyPlatform = LegacyPlatform(name: string, id: string)

  /** The `platforms` list: five platforms, no Odoo. */
  const Platforms: seq<LegacyPlatform> := [
    LegacyPlatform("WooCommerce", "woocommerce"),
    LegacyPlatform("Shopify", "shopify"),
    LegacyPlatform("PrestaShop", "prestashop"),
    LegacyPlatform("UberEats", "ubereats"),
    LegacyPlatform("Deliveroo", "deliveroo")
  ]

  /** Where each platform of this page sits in the platform list of src/pages/Sync.tsx. */
  const SyncPagePosition: seq<nat> := [0, 1, 3, 2, 5]

  /**
   * Against the platform list of src/pages/Sync.tsx: every platform here is
   * there under the same id, with the same display name except "UberEats",
   * which the newer page spells "Uber Eats".
   */
  lemma PlatformsOnSyncPage(i: nat)
    requires i < |Platforms|
    ensures SyncPagePosition[i] < |Sync.InitialPlatforms|
    ensures Sync.InitialPlatforms[SyncPagePosition[i]].id == Platforms[i].id
    ensures Sync.InitialPlatforms[SyncPagePosition[i]].name == Platforms[i].name <==> Platforms[i].id != "ubereats"
  {
  }

  /** Odoo, the one platform of the newer page missing here. */
  lemma NoOdoo()
    ensures |Platforms| == 5 && |Sync.InitialPlatforms| == 6
    ensures Sync.InitialPlatforms[4].id == "odoo"
    ensures forall i :: 0 <= i < |Platforms| ==> Platforms[i].id != "odoo" && SyncPagePosition[i] != 4
  {
  }

  /** One entry of the `/sync/status` answer. */
  datatype PlatformStatus = PlatformStatus(success: bool, lastSync: Option<string>)

  type SyncStatus = map<string, PlatformStatus>

  /** One entry of the `/sync/history` answer. */
  datatype HistoryEntry = HistoryEntry(kind: string, platform: string, timestamp: string,
                                       success: bool, message: string)

  /** One notistack snackbar. */
  datatype Snack = Snack(variant: Severity, message: string)

  const SyncRequest := Request(POST, "/sync/products")
  const StatusRequest := Request(GET, "/sync/status")
  const HistoryRequest := Request(GET, "/sync/history")

  function ImportRequest(platform: string): (r: Request)
    ensures r.verb == POST
    ensures r.path == "/sync/import/" + platform
    ensures |r.path| == 13 + |platform| && r.path[13..] == platform
  {
    Request(POST, "/sync/import/" + platform)
  }

  /** Each platform has its own import call, and none of them is the sync-all call. */
  lemma ImportRequestDistinct(a: string, b: string)
    ensures ImportRequest(a) == ImportRequest(b) <==> a == b
    ensures ImportRequest(a) != SyncRequest
  {
    if ImportRequest(a) == ImportRequest(b) {
      assert a == ImportRequest(a).path[13..];
    }
    assert ImportRequest(a).path[..13] == "/sync/import/";
    assert SyncRequest.path[..13] != "/sync/import/" by {
      assert SyncRequest.path[6] == 'p' && "/sync/import/"[6] == 'i';
    }
  }

  // ---------------------------------------------------------------------
  // The status panel.

  /** The secondary text of a status row: the last sync time, or "Never synced". */
  datatype SyncedText = NeverSynced | LastSyncAt(timestamp: string)

  datatype StatusRow = StatusRow(name: string, ok: bool, synced: SyncedText)

  function StatusRowOf(status: SyncStatus, p: LegacyPlatform): (r: StatusRow)
    ensures r.name == p.name
    ensures r.ok <==> p.id in status && status[p.id].success
    ensures r.synced.NeverSynced? <==> !(p.id in status && Truthy(status[p.id].lastSync))
    ensures r.synced.LastSyncAt? ==> r.synced.timestamp == status[p.id].lastSync.value
  {
    if p.id !in status then StatusRow(p.name, false, NeverSynced)
    else
      var s := status[p.id];
      StatusRow(p.name, s.success, if Truthy(s.lastSync) then LastSyncAt(s.lastSync.value) else NeverSynced)
  }

  /** The rows of the panel, one per platform in list order. */
  function StatusRows(status: SyncStatus): (rows: seq<StatusRow>)
    ensures |rows| == |Platforms|
    ensures forall i :: 0 <= i < |Platforms| ==> rows[i] == StatusRowOf(status, Platforms[i])
  {
    seq(|Platforms|, i requires 0 <= i < |Platforms| => StatusRowOf(status, Platforms[i]))
  }

  /** A platform the answer does not mention shows the error icon and "Never synced". */
  lemma UnreportedPlatformRow(status: SyncStatus, i: nat)
    requires i < |Platforms| && Platforms[i].id !in status
    ensures StatusRows(status)[i] == StatusRow(Platforms[i].name, false, NeverSynced)
  {
  }

  /** A status row only depends on that platform's entry. */
  lemma StatusRowLocal(status: SyncStatus, id: string, e: PlatformStatus, i: nat)
    requires i < |Platforms| && Platforms[i].id != id
    ensures StatusRows(status[id := e])[i] == StatusRows(status)[i]
  {
    assert StatusRows(status[id := e])[i] == StatusRowOf(status[id := e], Platforms[i]);
    assert StatusRows(status)[i] == StatusRowOf(status, Platforms[i]);
  }

  // ---------------------------------------------------------------------
  // The page.

  class LegacySyncView {
    var syncing: bool
    var syncHistory: seq<HistoryEntry>
    var syncStatus: SyncStatus
    var error: Option<string>
    /** Every snackbar enqueued, oldest first. */
    var snackbars: seq<Snack>
    /** Every request the page has issued, oldest first. */
    var requests: seq<Request>

    constructor ()
      ensures !syncing && syncHistory == [] && syncStatus == map[] && error == None
      ensures snackbars == [] && requests == []
    {
      syncing, syncHistory, syncStatus, error := false, [], map[], None;
      snackbars, requests := [], [];
    }

    /** loadSyncHistory: it catches its own failure, so it never rejects. */
    method LoadSyncHistory(reply: Reply<seq<HistoryEntry>>)
      modifies this`syncHistory, this`error, this`requests
      ensures requests == old(requests) + [HistoryRequest]
      ensures reply.Ok? ==> syncHistory == reply.data && error == old(error)
      ensures reply.Fail? ==> syncHistory == old(syncHistory) && error == Some("Failed to load sync history")
    {
      requests := requests + [HistoryRequest];
      match reply {
        case Ok(history) =>
          syncHistory := history;
        case Fail(_) =>
          error := Some("Failed to load sync history");
      }
    }

    /** loadSyncStatus: it catches its own failure, so it never rejects. */
    method LoadSyncStatus(reply: Reply<SyncStatus>)
      modifies this`syncStatus, this`error, this`requests
      ensures requests == old(requests) + [StatusRequest]
      ensures reply.Ok? ==> syncStatus == reply.data && error == old(error)
      ensures reply.Fail? ==> syncStatus == old(syncStatus) && error == Some("Failed to load sync status")
    {
      requests := requests + [StatusRequest];
      match reply {
        case Ok(status) =>
          syncStatus := status;
        case Fail(_) =>
          error := Some("Failed to load sync status");
      }
    }

    /** The mount effect: history first, then status. */
    method Mount(historyReply: Reply<seq<HistoryEntry>>, statusReply: Reply<SyncStatus>)
      modifies this`syncHistory, this`syncStatus, this`error, this`requests
      ensures requests == old(requests) + [HistoryRequest, StatusRequest]
      ensures historyReply.Ok? ==> syncHistory == historyReply.data
      ensures historyReply.Fail? ==> syncHistory == old(syncHistory)
      ensures statusReply.Ok? ==> syncStatus == statusReply.data
      ensures statusReply.Fail? ==> syncStatus == old(syncStatus)
      ensures error == (if statusReply.Fail? then Some("Failed to load sync status")
                        else if historyReply.Fail? then Some("Failed to load sync history")
                        else old(error))
    {
      LoadSyncHistory(historyReply);
      LoadSyncStatus(statusReply);
    }

    /**
     * The start of handleSync and handleImport, before their first await:
     * the page is busy and the error is cleared.
     */
    method Begin(call: Request)
      modifies this`syncing, this`error, this`requests
      ensures syncing && error == None
      ensures ActionsDisabled()
      ensures requests == old(requests) + [call]
    {
      syncing := true;
      error := None;
      requests := requests + [call];
    }

    /**
     * The rest of handleSync and handleImport once the action has been
     * answered: on success a snackbar, then the status and the history are
     * reloaded (each catching its own failure); on failure the error and
     * a snackbar; in every case the page is no longer busy.
     */
    method Settle(reply: Reply<()>, success: string, failure: string,
                  statusReply: Reply<SyncStatus>, historyReply: Reply<seq<HistoryEntry>>)
      modifies this`syncing, this`syncHistory, this`syncStatus, this`error, this`snackbars, this`requests
      ensures !syncing && !ActionsDisabled()
      ensures reply.Ok? ==>
        (snackbars == old(snackbars) + [Snack(Success, success)] &&
         requests == old(requests) + [StatusRequest, HistoryRequest] &&
         syncStatus == (if statusReply.Ok? then statusReply.data else old(syncStatus)) &&
         syncHistory == (if historyReply.Ok? then historyReply.data else old(syncHistory)) &&
         error == (if historyReply.Fail? then Some("Failed to load sync history")
                   else if statusReply.Fail? then Some("Failed to load sync status")
                   else old(error)))
      ensures reply.Fail? ==>
        (snackbars == old(snackbars) + [Snack(Error, failure)] && error == Some(failure) &&
         requests == old(requests) && syncStatus == old(syncStatus) && syncHistory == old(syncHistory))
    {
      match reply {
        case Ok(_) =>
          snackbars := snackbars + [Snack(Success, success)];
          LoadSyncStatus(statusReply);
          LoadSyncHistory(historyReply);
        case Fail(_) =>
          error := Some(failure);
          snackbars := snackbars + [Snack(Error, failure)];
      }
      syncing := false;
    }

    /** handleSync, from click to answer. */
    method SyncProducts(reply: Reply<()>, statusReply: Reply<SyncStatus>, historyReply: Reply<seq<HistoryEntry>>)
      modifies this`syncing, this`syncHistory, this`syncStatus, this`error, this`snackbars, this`requests
      ensures !syncing && !ActionsDisabled()
      ensures reply.Ok? ==>
        (snackbars == old(snackbars) + [Snack(Success, "Sync started successfully")] &&
         requests == old(requests) + [SyncRequest, StatusRequest, HistoryRequest] &&
         syncStatus == (if statusReply.Ok? then statusReply.data else old(syncStatus)) &&
         syncHistory == (if historyReply.Ok? then historyReply.data else old(syncHistory)) &&
         error == (if historyReply.Fail? then Some("Failed to load sync history")
                   else if statusReply.Fail? then Some("Failed to load sync status")
                   else None))
      ensures reply.Fail? ==>
        (snackbars == old(snackbars) + [Snack(Error, "Failed to start sync")] &&
         error == Some("Failed to start sync") && requests == old(requests) + [SyncRequest] &&
         syncStatus == old(syncStatus) && syncHistory == old(syncHistory))
    {
      Begin(SyncRequest);
      Settle(reply, "Sync started successfully", "Failed to start sync", statusReply, historyReply);
    }

    /** handleImport, from click to answer. */
    method Import(platform: string, reply: Reply<()>, statusReply: Reply<SyncStatus>,
                  historyReply: Reply<seq<HistoryEntry>>)
      modifies this`syncing, this`syncHistory, this`syncStatus, this`error, this`snackbars, this`requests
      ensures !syncing && !ActionsDisabled()
      ensures reply.Ok? ==>
        (snackbars == old(snackbars) + [Snack(Success, "Import from " + platform + " started successfully")] &&
         requests == old(requests) + [ImportRequest(platform), StatusRequest, HistoryRequest] &&
         syncStatus == (if statusReply.Ok? then statusReply.data else old(syncStatus)) &&
         syncHistory == (if historyReply.Ok? then historyReply.data else old(syncHistory)) &&
         error == (if historyReply.Fail? then Some("Failed to load sync history")
                   else if statusReply.Fail? then Some("Failed to load sync status")
                   else None))
      ensures reply.Fail? ==>
        (snackbars == old(snackbars) + [Snack(Error, "Failed to import from " + platform)] &&
         error == Some("Failed to import from " + platform) &&
         requests == old(requests) + [ImportRequest(platform)] &&
         syncStatus == old(syncStatus) && syncHistory == old(syncHistory))
    {
      Begin(ImportRequest(platform));
      Settle(reply, "Import from " + platform + " started successfully", "Failed to import from " + platform,
             statusReply, historyReply);
    }

    /** Every button of the page (sync, imports, both refreshes) is disabled while busy. */
    function ActionsDisabled(): (r: bool)
      reads this
      ensures r <==> syncing
    {
      syncing
    }

    /** The status panel as it is on screen. */
    function ShownStatus(): (rows: seq<StatusRow>)
      reads this
      ensures |rows| == |Platforms|
      ensures forall i :: 0 <= i < |Platforms| ==> rows[i] == StatusRowOf(syncStatus, Platforms[i])
    {
      StatusRows(syncStatus)
    }
  }
}

/**
 * The background service worker of the tracker extension (App/src/background.js):
 * a key-value store (`chrome.storage.local`) holding the settings, the export
 * history and the session metrics, and one handler per message type that reads,
 * changes and writes it back. Storage is a map; the clock and the result of
 * creating a browser notification are parameters.
 */
module MetricsStore {
  import opened Wrappers
  import opened Text

  const UsageDataKey := "claude_track_export_data"
  const SettingsKey := "claude_track_export_settings"
  const HistoryKey := "claude_track_export_history"
  const MetricsKey := "claude_track_export_session_metrics"

  /** The export history keeps at most this many entries, newest first. */
  const HistoryLimit := 50

  datatype Settings = Settings(
    autoRefresh: bool,
    autoOpenNewChat: bool,
    copyToClipboard: bool,
    showNotifications: bool,
    playSoundNotifications: Option<bool>)

  const DefaultSettings := Settings(true, true, true, true, Some(true))

  /** One `LOG_EXPORT` record. */
  datatype ExportEntry = ExportEntry(
    conversationId: string,
    conversationName: Option<string>,
    messageCount: nat,
    timestamp: int)

  datatype Metrics = Metrics(totalRefreshes: nat, totalExports: nat, lastRefreshTime: Option<int>)

  const ZeroMetrics := Metrics(0, 0, None)

  /** What a storage key holds; `OtherValue` stands for data of other shapes, such as the cached usage figures. */
  datatype Value =
    | SettingsValue(settings: Settings)
    | HistoryValue(entries: seq<ExportEntry>)
    | MetricsValue(metrics: Metrics)
    | OtherValue(json: string)

  /** The three keys written on install and after clearing, with their initial values. */
  function Defaults(): (m: map<string, Value>)
    ensures m.Keys == {SettingsKey, HistoryKey, MetricsKey}
    ensures m[SettingsKey] == SettingsValue(DefaultSettings)
    ensures m[HistoryKey] == HistoryValue([])
    ensures m[MetricsKey] == MetricsValue(ZeroMetrics)
  {
    map[SettingsKey := SettingsValue(DefaultSettings),
        HistoryKey := HistoryValue([]),
        MetricsKey := MetricsValue(ZeroMetrics)]
  }

  /**
   * The history after logging `entry`: the entry first, then the old history in
   * its old order, of which only the oldest entry is dropped, and only when the
   * list has grown past the limit.
   */
  function Unshifted(entry: ExportEntry, history: seq<ExportEntry>): (r: seq<ExportEntry>)
    ensures |r| == if |history| + 1 > HistoryLimit then |history| else |history| + 1
    ensures r[0] == entry
    ensures forall i :: 1 <= i < |r| ==> r[i] == history[i - 1]
  {
    var grown := [entry] + history;
    if |grown| > HistoryLimit then grown[..|grown| - 1] else grown
  }

  /** A history within the limit stays within it, and each call loses at most its oldest entry. */
  lemma UnshiftedBounded(entry: ExportEntry, history: seq<ExportEntry>)
    requires |history| <= HistoryLimit
    ensures |Unshifted(entry, history)| <= HistoryLimit
    ensures |history| < HistoryLimit ==> Unshifted(entry, history)[1..] == history
    ensures |history| == HistoryLimit ==> Unshifted(entry, history)[1..] == history[..|history| - 1]
  {
  }

  /** A handler's `sendResponse` envelope. */
  datatype Response =
    | Done                                  // { success: true }
    | SettingsData(settings: Settings)      // { success: true, data: settings }
    | HistoryData(entries: seq<ExportEntry>)
    | MetricsData(metrics: Metrics)
    | Refreshed(metrics: Metrics)           // { success: true, metrics }
    | Notified(notificationId: string)
    | Skipped                               // { success: true, skipped: true }
    | Failed(error: string)                 // { success: false, error }

  datatype NotificationRequest = NotificationRequest(title: Option<string>, message: Option<string>, priority: Option<int>)

  datatype Notification = Notification(iconUrl: string, title: string, message: string, priority: int)

  function OrDefault(s: Option<string>, default: string): string {
    if s.Some? && s.value != "" then s.value else default
  }

  /** The notification `SEND_NOTIFICATION` asks for, with the defaults for missing fields. */
  function NotificationFor(request: NotificationRequest): (n: Notification)
    ensures n.title != ""
    ensures request.title.Some? && request.title.value != "" ==> n.title == request.title.value
    ensures !(request.title.Some? && request.title.value != "") ==> n.title == "Claude Track & Export"
    ensures request.message.Some? && request.message.value != "" ==> n.message == request.message.value
    ensures !(request.message.Some? && request.message.value != "") ==> n.message == ""
    ensures n.iconUrl == "icons/icon128.png"
    ensures n.priority == if request.priority.Some? then request.priority.value else 0
  {
    Notification("icons/icon128.png",
                 OrDefault(request.title, "Claude Track & Export"),
                 OrDefault(request.message, ""),
                 request.priority.GetOr(0))
  }

  /** The messages the worker understands; any other `type` string is `Unrecognised`. */
  datatype Request =
    | GetSettings
    | SaveSettings(settings: Settings)
    | LogExport(entry: ExportEntry)
    | LogRefresh
    | GetExportHistory
    | GetSessionMetrics
    | ClearData
    | SendNotification(notification: NotificationRequest)
    | Unrecognised(kind: string)

  const KnownKinds := {"GET_SETTINGS", "SAVE_SETTINGS", "LOG_EXPORT", "LOG_REFRESH",
                       "GET_EXPORT_HISTORY", "GET_SESSION_METRICS", "CLEAR_DATA", "SEND_NOTIFICATION"}

  /** The `type` field of a request. */
  function Kind(request: Request): (k: string)
    ensures request.Unrecognised? || k in KnownKinds
  {
    match request
    case GetSettings => "GET_SETTINGS"
    case SaveSettings(_) => "SAVE_SETTINGS"
    case LogExport(_) => "LOG_EXPORT"
    case LogRefresh => "LOG_REFRESH"
    case GetExportHistory => "GET_EXPORT_HISTORY"
    case GetSessionMetrics => "GET_SESSION_METRICS"
    case ClearData => "CLEAR_DATA"
    case SendNotification(_) => "SEND_NOTIFICATION"
    case Unrecognised(kind) => kind
  }

  /** Each known request has its own `type` string. */
  lemma KindsDistinct(a: Request, b: Request)
    requires !a.Unrecognised? && !b.Unrecognised?
    requires Kind(a) == Kind(b)
    ensures a.GetSettings? == b.GetSettings? && a.SaveSettings? == b.SaveSettings?
    ensures a.LogExport? == b.LogExport? && a.LogRefresh? == b.LogRefresh?
    ensures a.GetExportHistory? == b.GetExportHistory? && a.GetSessionMetrics? == b.GetSessionMetrics?
    ensures a.ClearData? == b.ClearData? && a.SendNotification? == b.SendNotification?
  {
  }

  class Store {
    var items: map<string, Value>

    /** Each of the three keys, when present, holds a value of its own shape. */
    ghost predicate Valid()
      reads this
    {
      && (SettingsKey in items ==> items[SettingsKey].SettingsValue?)
      && (HistoryKey in items ==> items[HistoryKey].HistoryValue?)
      && (MetricsKey in items ==> items[MetricsKey].MetricsValue?)
    }

    /** `result[SETTINGS] || DEFAULT_SETTINGS` */
    function CurrentSettings(): Settings
      reads this
      requires Valid()
    {
      if SettingsKey in items then items[SettingsKey].settings else DefaultSettings
    }

    /** `result[EXPORT_HISTORY] || []` */
    function CurrentHistory(): seq<ExportEntry>
      reads this
      requires Valid()
    {
      if HistoryKey in items then items[HistoryKey].entries else []
    }

    /** `result[SESSION_METRICS] || { totalRefreshes: 0, totalExports: 0, lastRefreshTime: null }` */
    function CurrentMetrics(): Metrics
      reads this
      requires Valid()
    {
      if MetricsKey in items then items[MetricsKey].metrics else ZeroMetrics
    }

    /** The extension's storage before anything has been written. */
    constructor ()
      ensures Valid() && items == map[]
    {
      items := map[];
    }

    /**
     * `onInstalled`: a fresh install writes the three defaults with
     * `storage.set`, which merges into what is there; an update writes nothing.
     */
    method OnInstalled(reason: string)
      requires Valid()
      modifies this
      ensures Valid()
      ensures items == if reason == "install" then old(items) + Defaults() else old(items)
    {
      if reason == "install" {
        items := items + Defaults();
      }
    }

    method HandleGetSettings() returns (response: Response)
      requires Valid()
      ensures response == SettingsData(CurrentSettings())
      ensures SettingsKey !in items ==> response == SettingsData(DefaultSettings)
    {
      var settings := DefaultSettings;
      if SettingsKey in items {
        settings := items[SettingsKey].settings;
      }
      response := SettingsData(settings);
    }

    method HandleSaveSettings(settings: Settings) returns (response: Response)
      requires Valid()
      modifies this
      ensures Valid()
      ensures items == old(items)[SettingsKey := SettingsValue(settings)]
      ensures response == Done
    {
      items := items[SettingsKey := SettingsValue(settings)];
      response := Done;
    }

    /**
     * `LOG_EXPORT`: the entry, stamped with the worker's clock, goes to the
     * front of the history (trimmed to the limit) and the export counter grows by
     * one; the refresh counter, the refresh time and every other key are kept.
     */
    method HandleLogExport(data: ExportEntry, now: int) returns (response: Response)
      requires Valid()
      modifies this
      ensures Valid()
      ensures items == old(items)
        [HistoryKey := HistoryValue(Unshifted(data.(timestamp := now), old(CurrentHistory())))]
        [MetricsKey := MetricsValue(old(CurrentMetrics()).(totalExports := old(CurrentMetrics()).totalExports + 1))]
      ensures CurrentMetrics().totalExports == old(CurrentMetrics()).totalExports + 1
      ensures CurrentMetrics().totalRefreshes == old(CurrentMetrics()).totalRefreshes
      ensures CurrentMetrics().lastRefreshTime == old(CurrentMetrics()).lastRefreshTime
      ensures |old(CurrentHistory())| <= HistoryLimit ==> |CurrentHistory()| <= HistoryLimit
      ensures response == Done
    {
      var history := CurrentHistory();
      history := [data.(timestamp := now)] + history;
      if |history| > HistoryLimit {
        history := history[..|history| - 1];
      }
      var metrics := CurrentMetrics();
      metrics := metrics.(totalExports := metrics.totalExports + 1);
      items := items[HistoryKey := HistoryValue(history)][MetricsKey := MetricsValue(metrics)];
      response := Done;
    }

    /** `LOG_REFRESH`: one more refresh, stamped now; the export counter and the history are kept. */
    method HandleLogRefresh(now: int) returns (response: Response)
      requires Valid()
      modifies this
      ensures Valid()
      ensures CurrentMetrics() == Metrics(old(CurrentMetrics()).totalRefreshes + 1, old(CurrentMetrics()).totalExports, Some(now))
      ensures items == old(items)[MetricsKey := MetricsValue(CurrentMetrics())]
      ensures response == Refreshed(CurrentMetrics())
    {
      var metrics := CurrentMetrics();
      metrics := metrics.(totalRefreshes := metrics.totalRefreshes + 1);
      metrics := metrics.(lastRefreshTime := Some(now));
      items := items[MetricsKey := MetricsValue(metrics)];
      response := Refreshed(metrics);
    }

    method HandleGetExportHistory() returns (response: Response)
      requires Valid()
      ensures response == HistoryData(CurrentHistory())
      ensures HistoryKey !in items ==> response == HistoryData([])
    {
      var history := [];
      if HistoryKey in items {
        history := items[HistoryKey].entries;
      }
      response := HistoryData(history);
    }

    method HandleGetSessionMetrics() returns (response: Response)
      requires Valid()
      ensures response == MetricsData(CurrentMetrics())
      ensures MetricsKey !in items ==> response == MetricsData(ZeroMetrics)
    {
      var metrics := ZeroMetrics;
      if MetricsKey in items {
        metrics := items[MetricsKey].metrics;
      }
      response := MetricsData(metrics);
    }

    /** `CLEAR_DATA`: `storage.clear()` then the three defaults; every other key, usage data included, is gone. */
    method HandleClearData() returns (response: Response)
      requires Valid()
      modifies this
      ensures Valid()
      ensures items == Defaults()
      ensures UsageDataKey !in items
      ensures response == Done
    {
      items := map[];
      items := items + Defaults();
      response := Done;
    }

    /**
     * `SEND_NOTIFICATION`: with notifications switched off nothing is shown and
     * the answer is "skipped"; otherwise the notification is created and the
     * answer carries its id, or the browser's error (`created`).
     */
    method HandleSendNotification(request: NotificationRequest, created: Result<string, string>)
      returns (response: Response, shown: Option<Notification>)
      requires Valid()
      ensures !CurrentSettings().showNotifications ==> response == Skipped && shown == None
      ensures CurrentSettings().showNotifications ==> shown == Some(NotificationFor(request))
      ensures CurrentSettings().showNotifications ==>
                response == (if created.Ok? then Notified(created.value) else Failed(created.error))
    {
      var settings := CurrentSettings();
      if settings.showNotifications {
        shown := Some(NotificationFor(request));
        match created
        case Ok(id) => response := Notified(id);
        case Err(e) => response := Failed(e);
      } else {
        response := Skipped;
        shown := None;
      }
    }

    /** `onMessage`: route a request to its handler; an unknown type gets an error envelope and changes nothing. */
    method Dispatch(request: Request, now: int, created: Result<string, string>)
      returns (response: Response, shown: Option<Notification>)
      requires Valid()
      requires request.Unrecognised? ==> request.kind !in KnownKinds
      modifies this
      ensures Valid()
      ensures request.Unrecognised? ==> response == Failed("Unknown message type") && items == old(items)
      ensures !request.SendNotification? ==> shown == None
      ensures (request.GetSettings? || request.GetExportHistory? || request.GetSessionMetrics? || request.SendNotification?)
                ==> items == old(items)
      ensures request.GetSettings? ==> response == SettingsData(old(CurrentSettings()))
      ensures request.GetExportHistory? ==> response == HistoryData(old(CurrentHistory()))
      ensures request.GetSessionMetrics? ==> response == MetricsData(old(CurrentMetrics()))
      ensures request.SaveSettings? ==>
                response == Done && items == old(items)[SettingsKey := SettingsValue(request.settings)]
      ensures request.LogExport? ==>
                response == Done &&
                items == old(items)
                  [HistoryKey := HistoryValue(Unshifted(request.entry.(timestamp := now), old(CurrentHistory())))]
                  [MetricsKey := MetricsValue(old(CurrentMetrics()).(totalExports := old(CurrentMetrics()).totalExports + 1))]
      ensures request.LogRefresh? ==>
                var metrics := Metrics(old(CurrentMetrics()).totalRefreshes + 1, old(CurrentMetrics()).totalExports, Some(now));
                response == Refreshed(metrics) && items == old(items)[MetricsKey := MetricsValue(metrics)]
      ensures request.ClearData? ==> response == Done && items == Defaults()
      ensures request.SendNotification? && !old(CurrentSettings()).showNotifications ==>
                response == Skipped && shown == None
      ensures request.SendNotification? && old(CurrentSettings()).showNotifications ==>
                shown == Some(NotificationFor(request.notification)) &&
                response == (if created.Ok? then Notified(created.value) else Failed(created.error))
    {
      shown := None;
      match request
      case GetSettings => response := HandleGetSettings();
      case SaveSettings(s) => response := HandleSaveSettings(s);
      case LogExport(entry) => response := HandleLogExport(entry, now);
      case LogRefresh => response := HandleLogRefresh(now);
      case GetExportHistory => response := HandleGetExportHistory();
      case GetSessionMetrics => response := HandleGetSessionMetrics();
      case ClearData => response := HandleClearData();
      case SendNotification(n) => response, shown := HandleSendNotification(n, created);
      case Unrecognised(_) => response := Failed("Unknown message type");
    }
  }

  /** Installing on empty storage leaves exactly the three defaults, the same state clearing leaves. */
  method FreshInstall() returns (store: Store)
    ensures fresh(store) && store.Valid()
    ensures store.items == Defaults()
  {
    store := new Store();
    store.OnInstalled("install");
    assert map[] + Defaults() == Defaults();
  }

  datatype Tab = Tab(id: int, url: Option<string>)

  /** The broadcast of a storage change passes over the `claude.ai/code` pages, where no content script runs. */
  predicate SkipsBroadcast(url: Option<string>) {
    url.Some? && url.value != "" && (Includes(url.value, "claude.ai/code/") || EndsWith(url.value, "claude.ai/code"))
  }

  /** The tabs a storage change is forwarded to, in query order. */
  function BroadcastTargets(tabs: seq<Tab>): (r: seq<Tab>)
    ensures |r| <= |tabs|
    ensures forall t :: t in r <==> t in tabs && !SkipsBroadcast(t.url)
  {
    if tabs == [] then []
    else
      var last := tabs[|tabs| - 1];
      assert forall t :: t in tabs <==> t in tabs[..|tabs| - 1] || t == last;
      BroadcastTargets(tabs[..|tabs| - 1]) + (if SkipsBroadcast(last.url) then [] else [last])
  }

  /** `storage.onChanged`: send `STORAGE_CHANGED` to each queried tab not on a `/code` page. */
  method BroadcastStorageChange(tabs: seq<Tab>) returns (sentTo: seq<Tab>)
    ensures sentTo == BroadcastTargets(tabs)
  {
    sentTo := [];
    var i := 0;
    while i < |tabs|
      invariant 0 <= i <= |tabs|
      invariant sentTo == BroadcastTargets(tabs[..i])
    {
      assert tabs[..i + 1][..i] == tabs[..i];
      if !SkipsBroadcast(tabs[i].url) {
        sentTo := sentTo + [tabs[i]];
      }
      i := i + 1;
    }
    assert tabs[..i] == tabs;
  }

  /**
   * `tabs.onUpdated`: the `URL_CHANGED` message, carrying the tab's URL, that a
   * tab which finished loading a `claude.ai` page is sent; `None` for any other update.
   */
  function NavigationNotice(status: string, url: Option<string>): (notice: Option<string>)
    ensures notice.Some? <==> status == "complete" && url.Some? && Includes(url.value, "claude.ai")
    ensures notice.Some? ==> notice == url
  {
    if status == "complete" && url.Some? && Includes(url.value, "claude.ai") then url else None
  }
}

/** One cycle of the alert monitor of redalert.py (`monitor`, `is_test_alert`,
    `alarm_on`, `alarm_off`, lines 105-149) as a pure step: given the
    configuration, the ids already dispatched and the feed text of this
    cycle, it yields the new set of dispatched ids and the ordered list of
    effects the cycle performs — MQTT publishes and one call into the
    notification library. The HTTP fetch, JSON decoding and serialisation
    are outside: the feed arrives as decoded text and decoding is a
    parameter `parse`. */
module Monitor {
  import opened Options
  import opened Whitespace
  import Notification

  /** The settings the cycle reads: `REGION`, `INCLUDE_TEST_ALERTS`,
      `DEBUG_MODE`, the raw `NOTIFIERS` string and the `MQTT_TOPIC`
      namespace. */
  datatype Config = Config(
    region: string,
    includeTestAlerts: bool,
    debugMode: bool,
    notifiers: string,
    topic: string)

  /** The keys of a decoded feed object that the cycle reads. `id` and
      `data` are read before any effect, so a feed without them is
      `Malformed`; `title` and `desc` are read only when a notification is
      built, so their absence is kept. Any other key is not kept. */
  datatype Alert = Alert(id: int, data: seq<string>, title: Option<string>, desc: Option<string>)

  /** The result of decoding the stripped feed text: a JSON error, a
      missing `id` or `data` key, or an alert. */
  datatype Parsed = Malformed | Parsed(alert: Alert)

  /** What a publish carries: the region list, the alert's four read keys
      (each JSON-encoded by the program, which encodes every key of the
      decoded object), or a plain status string. */
  datatype Payload = RegionList(regions: seq<string>) | AlertRecord(alert: Alert) | Text(text: string)

  datatype Effect = Publish(topic: string, payload: Payload) | Notify(title: string, body: string)

  /** The state after one cycle and what the cycle did, in order. */
  datatype Outcome = Outcome(seen: set<int>, effects: seq<Effect>)

  /** What a cycle decides about its feed. */
  datatype Decision =
    | NoAlerts            // blank feed: the alarm is off
    | Unreadable          // decoding raised; the exception is swallowed
    | OutOfRegion         // the alert does not name the watched region
    | Suppressed          // already dispatched, or a test alert
    | Dispatch(alert: Alert)

  /** `REGION` value that watches every region. */
  const AllRegions: string := "*"
  /** The two region entries that mark a drill ("test", "periodic test"). */
  const TestMarker: string := "בדיקה"
  const PeriodicTestMarker: string := "בדיקה מחזורית"
  const StatusOn: string := "on"
  const NoActiveAlerts: string := "No active alerts"
  /** `SENT_ALERTS_IDS` at startup. */
  const InitialSeen: set<int> := {0}

  function DataTopic(cfg: Config): string { cfg.topic + "/data" }
  function AlertsTopic(cfg: Config): string { cfg.topic + "/alerts" }
  function StatusTopic(cfg: Config): string { cfg.topic + "/status" }

  /** Notifications go out when `NOTIFIERS` is non-empty as a string. */
  predicate HasNotifiers(cfg: Config) {
    |cfg.notifiers| != 0
  }

  predicate InRegion(region: string, data: seq<string>) {
    region in data || region == AllRegions
  }

  predicate HasTestMarker(data: seq<string>) {
    TestMarker in data || PeriodicTestMarker in data
  }

  /** `is_test_alert`: a drill, unless test alerts are included, in which
      case nothing counts as a drill. */
  predicate IsTestAlert(cfg: Config, a: Alert) {
    !cfg.includeTestAlerts && HasTestMarker(a.data)
  }

  /** The filter of `monitor`: strip, decode, region check, then dispatch
      a new non-drill alert, or any alert at all in debug mode. */
  function Decide(cfg: Config, seen: set<int>, text: string, parse: string -> Parsed): (d: Decision)
    ensures d == NoAlerts <==> AllSpace(text)
    ensures d.Dispatch? ==> parse(Strip(text)) == Parsed(d.alert) && InRegion(cfg.region, d.alert.data)
    ensures d.Dispatch? && !cfg.debugMode ==> d.alert.id !in seen && !IsTestAlert(cfg, d.alert)
  {
    var body := Strip(text);
    if |body| == 0 then NoAlerts
    else
      match parse(body)
      case Malformed => Unreadable
      case Parsed(a) =>
        if !InRegion(cfg.region, a.data) then OutOfRegion
        else if (a.id !in seen && !IsTestAlert(cfg, a)) || cfg.debugMode then Dispatch(a)
        else Suppressed
  }

  /** `alarm_off`. */
  function AlarmOff(cfg: Config): seq<Effect> {
    [Publish(StatusTopic(cfg), Text(NoActiveAlerts))]
  }

  /** The notification of `alarm_on`, or nothing: there is none without
      notifiers, and a missing `title` or `desc` raises while the notify
      arguments are built, after the three publishes. */
  function AlertNotice(cfg: Config, a: Alert): seq<Effect> {
    if HasNotifiers(cfg) && a.title.Some? && a.desc.Some?
    then [Notify(a.title.value, Notification.Body(a.data, a.desc.value))]
    else []
  }

  /** `alarm_on`: the region list, the alert and the status "on", then
      the notification. */
  function AlarmOn(cfg: Config, a: Alert): seq<Effect> {
    [ Publish(DataTopic(cfg), RegionList(a.data)),
      Publish(AlertsTopic(cfg), AlertRecord(a)),
      Publish(StatusTopic(cfg), Text(StatusOn)) ]
    + AlertNotice(cfg, a)
  }

  /** One cycle of `monitor`. The id of a dispatched alert is recorded
      before `alarm_on` runs, so it stays recorded even when building the
      notification fails. */
  function Step(cfg: Config, seen: set<int>, text: string, parse: string -> Parsed): (o: Outcome)
    ensures seen <= o.seen
    ensures o.seen != seen ==> Decide(cfg, seen, text, parse).Dispatch?
                               && o.seen == seen + {Decide(cfg, seen, text, parse).alert.id}
    ensures AllSpace(text) <==> o.effects == [Publish(StatusTopic(cfg), Text(NoActiveAlerts))]
    ensures AllSpace(text) ==> o.seen == seen
  {
    match Decide(cfg, seen, text, parse)
    case NoAlerts => Outcome(seen, AlarmOff(cfg))
    case Dispatch(a) => Outcome(seen + {a.id}, AlarmOn(cfg, a))
    case _ => Outcome(seen, [])
  }

}

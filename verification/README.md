# Red alert monitor — Dafny model

A model of `redalert.py`, a small service that polls the Israeli Home Front
Command alert feed once a second and republishes each new alert on MQTT.
It publishes the alert's region list on `<topic>/data`, the whole alert on
`<topic>/alerts` and an `on` / `No active alerts` status on
`<topic>/status`. It also sends one notification through the Apprise
library.

The model has these parts:

- **One monitor cycle** (`Monitor`). A pure step
  `Step(cfg, seen, text, parse)` takes the feed text of one cycle and
  returns the new set of dispatched alert ids together with the ordered
  effects of the cycle. An effect is either `Publish(topic, payload)` or
  `Notify(title, body)`. Decoding the stripped text is a parameter
  `parse`, and its failure is the value `Malformed`.
- **The cycle's guarantees** (`CycleProperties`), one lemma per rule.
- **Successive cycles** (`Scheduler`). These cover the dedup guarantee
  over any number of cycles and the effect of the `{0}` seed.
- **Python `str.strip()`** (`Whitespace`), with the exact `str.isspace`
  character set.
- **`', '.join`** (`Strings`), with its inverse, a split. The
  notification body (`Notification`) is shown to be lossless.
- **The environment flag rule** (`EnvFlags`) used for `DEBUG_MODE` and
  `INCLUDE_TEST_ALERTS`.
- **The broker connection flags** (`Broker`), as set by `on_connect` and
  `on_disconnect`, together with the reconnect request.

How the program behaves in the cases that are easy to get wrong:

- The program keeps no alarm state. Every blank feed publishes
  `No active alerts` again, and a suppressed alert publishes nothing.
- Debug mode overrides the drill filter as well as dedup (line 142).
- A dispatch makes a single notification call into Apprise, and only when
  `NOTIFIERS` is a non-empty string (lines 109-111). A whitespace-only
  `NOTIFIERS` registers no sink, but the call is still made.
- The id of a dispatched alert is recorded before `alarm_on` runs
  (line 143). An alert without `title` or `desc` therefore gets its three
  publishes and is recorded, but the notification fails and is not sent
  (the exception is swallowed at line 148).
- The connection state is just `connected_flag`: it is set by CONNACK
  code 0 and cleared on every disconnect.

## Model

| member | source | states |
|---|---|---|
| Whitespace.Strip | redalert.py:137 | the stripped feed is a slice of the input, surrounded only by whitespace, with no whitespace at either end; it is empty exactly when the input is all whitespace |
| Whitespace.StripUnique | redalert.py:137 | any split of the text into whitespace, a core with no whitespace at its ends, and whitespace has the stripped text as its core |
| Whitespace.StripIdempotent | redalert.py:137 | stripping an already stripped feed changes nothing |
| Strings.Split | redalert.py:112 | the inverse of the region join: joining the parts with the separator gives back the text, and no part contains the separator |
| Strings.SplitJoin | redalert.py:112 | splitting `', '.join(regions)` at ", " gives the regions back when there is at least one and none contains ", " |
| Notification.Body | redalert.py:112 | definition; Notification.BodyRoundTrip states that it loses nothing |
| Notification.BodyRoundTrip | redalert.py:111-113 | the notification body determines the alert's region list and description exactly, when there is at least one region and no region name holds ", " or a line break |
| EnvFlags.EnvFlag | redalert.py:24 | an unset flag variable defaults to "False" and reads as off; a set one is on exactly when its lower-cased value is "true", "1" or "t" |
| EnvFlags.IsOnSpellings | redalert.py:29 | a flag value is on if and only if it is "1", or "t" or "true" with each letter in either case |
| Broker.StartupConnect | redalert.py:57-58 | the startup connect goes to the configured host and port |
| Broker.OnConnect | redalert.py:77-91 | return code 0 sets the connected flag; any other code leaves both flags unchanged |
| Broker.OnDisconnectAsWritten | redalert.py:94-98 | as written, a disconnect clears the connected flag, sets the disconnect flag and reconnects to the configured host but not with the startup keep-alive; Broker.AsWrittenReconnectIgnoresPort states where the request goes |
| Broker.OnDisconnect | redalert.py:94-98 | a disconnect clears the connected flag, sets the disconnect flag and requests a reconnect to the configured broker (corrected; see Findings) |
| Broker.AsWrittenReconnectIgnoresPort | redalert.py:98 | as written, the reconnect keeps the host but reaches the configured port only if it is 1883, and never repeats the startup request |
| Broker.Replay | redalert.py:77-98 | over a run of callbacks there is exactly one reconnect request per lost session, and each one targets the configured broker (corrected; see Findings) |
| Broker.ReplayTracksConnection | redalert.py:77-98 | after a run of callbacks the client counts as connected iff a CONNACK 0 came after the last lost session (or it started connected and lost none); the disconnect flag is set iff it was set at the start or a session was lost |
| Monitor.Decide | redalert.py:137-143 | blank iff the text is all whitespace; a dispatched alert is the decoded feed and names the region (or the region is "*"); outside debug mode it is new and not a drill |
| Monitor.IsTestAlert | redalert.py:121-123 | definition; CycleProperties.TestAlertFilter states its effect |
| Monitor.AlarmOff | redalert.py:117-118 | definition; CycleProperties.BlankFeed states its effect |
| Monitor.AlertNotice | redalert.py:109-114 | definition; CycleProperties.DispatchEffects states when the notification is sent and what it carries |
| Monitor.AlarmOn | redalert.py:105-114 | definition; CycleProperties.DispatchEffects states its publishes in order and the notification |
| Monitor.Step | redalert.py:137-147 | the seen set never shrinks and grows only by the dispatched id; a cycle publishes exactly the single "No active alerts" status iff the feed is blank, and then records nothing |
| CycleProperties.BlankFeed | redalert.py:117-118 | a blank feed yields exactly one publish of "No active alerts" on `<topic>/status`, no notification, and the set unchanged |
| CycleProperties.MalformedFeed | redalert.py:139-149 | a non-blank feed that fails to decode yields no effects and leaves the set unchanged |
| CycleProperties.RegionFilter | redalert.py:141 | an alert that does not list the watched region (when it is not "*") yields nothing, even in debug mode |
| CycleProperties.Dedup | redalert.py:142-143 | outside debug mode an alert whose id is already recorded yields nothing |
| CycleProperties.TestAlertFilter | redalert.py:121-123 | a new in-region alert outside debug mode yields effects iff test alerts are included or its regions hold neither drill marker |
| CycleProperties.DebugOverride | redalert.py:142 | in debug mode a decoded alert yields effects iff it is in region, whatever the set and the drill markers, and its id is recorded |
| CycleProperties.DispatchEffects | redalert.py:105-114 | a dispatch records the id and publishes the region list to `/data`, the alert to `/alerts`, "on" to `/status`, in that order, followed by exactly one notification (the title, plus the body built from the regions and the description) iff NOTIFIERS is non-empty and the alert has a title and a description |
| CycleProperties.TopicsDistinct | redalert.py:20-22 | the data, alerts and status topics are three different names |
| CycleProperties.SilentUnlessDispatchOrBlank | redalert.py:139-147 | a non-blank feed that is not dispatched publishes nothing and records nothing |
| CycleProperties.RepeatIsSilent | redalert.py:142-143 | outside debug mode the same non-blank feed in the next cycle has no effects |
| Scheduler.Run | redalert.py:126-149 | over any run of cycles the set of recorded ids is the starting set plus exactly the ids published on the alerts topic, so it never shrinks; outside debug mode each id is published at most once, and never if it was recorded at the start |
| Scheduler.RunFromStart | redalert.py:42 | id 0 is recorded from startup on |
| Scheduler.StepDispatches | redalert.py:142-144 | a cycle publishes an alert with a given id on the alerts topic once if it dispatches that alert and never otherwise |
| Scheduler.IdZeroNeverDispatched | redalert.py:42 | outside debug mode, an alert with id 0 is never published |

## Left out

- Fetching the feed (lines 132-134), its headers, the URL switch in debug mode (lines 38-40) and the utf-8-sig decoding: network I/O. A cycle takes the decoded text.
- A fetch that raises (lines 132-134, caught at line 148) has no effects and leaves the set unchanged. Such a cycle is the same as leaving it out of `Scheduler.Run`'s `feeds`, so no feed value stands for it.
- A non-2xx reply is not an error, because the program never calls `raise_for_status`. Its body goes through `strip` and `parse` like any other text, so it is one of the texts `feeds` can hold.
- JSON decoding (line 140) and `json.dumps` (lines 106-107): library calls. Decoding is the `parse` parameter, and payloads are the datatype `Payload`.
- Monitor.Alert: the alerts payload (line 107) is the whole decoded object, but `AlertRecord` keeps only `id`, `data`, `title` and `desc`. Feeds that differ only in another key have the same model effects, while the program publishes different text.
- A decoded `id` is an integer. A string id would never equal the seed `0`.
- A decoded `data` is a list of strings. For a string `data`, line 141 would be a substring test.
- `title` and `desc` are strings or absent. The `str()` rendering of other JSON values is not modelled.
- The MQTT client and the Apprise library are foreign code. Publishes and the notify call are effect values. The fan-out to sinks and the failure of a single sink happen inside Apprise.
- Parsing `NOTIFIERS` into Apprise jobs (lines 66-71) is library setup. Only the non-empty test of line 109 matters to a cycle.
- Scheduler.Run: the model takes cycles one at a time. The program re-arms the timer before fetching (line 128), and `requests.get` has no timeout (line 132). A slow fetch therefore lets cycles overlap, and then the test at line 142 and the insert at line 143 can both pass in two cycles and publish one id twice. Overlap is not modelled, and the at-most-once guarantee holds for cycles that run one after another.
- Broker.Replay: the program stops the client's network loop after startup (line 64), so no CONNACK is handled after that and a reconnect cannot raise `connected_flag` again. `Replay` covers every order of callbacks, including orders the stopped loop cannot deliver. Its guarantees hold for all of them.
- The startup wait loop (lines 60-62) is timing. `Broker.ReplayTracksConnection` states when the flag it waits on is set.
- Logging is I/O only. This covers `on_log` (lines 101-102, which calls `logger.inf`, a method loguru does not define), the refusal messages for return codes 1-5 and the log line after a dispatch.
- Reading the environment (`os.getenv`) is I/O. Only the string-to-boolean rule is modelled.
- EnvFlags.IsOnSpellings: the model lower-cases ASCII letters only. Python's `str.lower` maps no other character to `t`, `r`, `u`, `e` or `1`, so whether the flag is on comes out the same.

## Findings

| source | as written | input that shows it | evidently intended | confidence | as-written member | corrected member |
|---|---|---|---|---|---|---|
| redalert.py:98 | `on_disconnect` reconnects with `client.connect(MQTT_HOST)`. The client library then defaults to port 1883 and keep-alive 60. | `MQTT_PORT=8883`, then the broker drops the session: the reconnect goes to port 1883. | Reconnect to the configured host and port with the startup keep-alive of 3600 (line 58). | medium, not executed | Broker.OnDisconnectAsWritten (shown by Broker.AsWrittenReconnectCounterexample) | Broker.OnDisconnect (used by Broker.Replay) |

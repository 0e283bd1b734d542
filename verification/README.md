# EmbedIQ Cloud, verified model

EmbedIQ Cloud is a small control plane for devices: a registry and a device shadow in SQLite, a
consumer-only MQTT bridge that writes what devices say into the same tables, a best-effort MQTT
publisher for what devices should do, and a throttled authentication hook for the broker. This
project models those parts in Dafny and proves what they keep over whole runs.

The modules follow the program:

- `Json`, `Dicts`, `Order`, `Prelude`: JSON values with Python's equality and truth value, key-level
  merging and subsequences, SQL text order.
- `Topics`: building, splitting, routing, subscribing and authorising topics.
- `Db`: the four tables, the statements issued against them, and a connection whose open transaction
  is lost unless it is committed.
- `Registry`, `Shadow`, `Bridge`, `Ota`, `MqttPub`, `Auth`: the handlers, as methods over the database,
  the publisher's queue, the effect log and the failure store, each proved against a specification.
- `ControlPlane`: the cloud process as a step system. A desired-state patch takes four steps (check,
  load, commit, publish) that other requests and bridge messages interleave with, and the process may
  restart at any point: the file stays, the requests in flight are gone. Histories are not stored:
  they are scans of the run (`AllCommits`, `LifeCommits`, `LastAccepted`, `Synced`, `InCommitOrder`).
- `Patches`: what overlapping, ordered and serialised patches leave in the row and in the publishes.
- `DeviceLog`: the state row as a scan of a device's messages.
- `Logins`: whom the broker lets in, from the registration of a device to its deletion.
- `Throttle`: runs of interleaved authentication requests.
- `Fleet`: the control plane with the publisher's FIFO queue, the broker's retained store, devices that
  disconnect and return, reports on their way back, and a bridge that loses its session.
- `Delivery`: convergence of reports and desired documents, and delivery runs that come to rest.
- `FleetRest`: the whole fleet coming to rest, and converging, at once.
- `Restarts`, `Sessions`: what a restart and a lost session of the bridge leave, exactly.

## Assumptions

- SQLite transactions are atomic and isolated; a failed constraint leaves the table alone; closing a
  connection rolls back. `json.loads` after `json.dumps` is the identity.
- Every API request but the desired-state patch is one atomic step. `post_device`, `patch_device`,
  `post_group` and `delete_group` check for their row before their transaction opens; that nothing
  comes in between is assumed.
- Each throttle helper is one atomic step, and the clock does not step back within a run.
- The publisher is FIFO at QoS 1 with retransmission in order. Retain and delivery follow sections
  3.3.1.3, 4.3.2 and 4.6 of MQTT 3.1.1, filter matching section 4.7.1, topic names without wildcards
  section 3.3.2.1. Sessions are clean: a disconnect loses what the broker had queued for the device or
  for the bridge. The retained documents that a new subscription takes in come in order of their topics,
  and a subscription whose filter is malformed takes in nothing.
- A device applies what it receives in order and reports something that meets it. A report is with the
  broker once it is made and the bridge takes the reports of one device in order; the retained report
  of a device is its own.
- Bcrypt is a parameter of the methods that use it. What a client accepts or drops, the clock and the
  parsed payload are parameters too.

## What the code does not do

- Overlapping patches may lose updates, as `ARCHITECTURE.md` says (last write wins).
  `Patches.StaleCommitIff` gives the exact condition and `Patches.LostUpdateReachable` the runs.
- Two patches that load and commit in turn may still publish in the other order and leave the device
  with the older document although every publish was accepted: `Patches.StalePublishReachable`. A
  publish leaves the stored document exactly when no later commit or deletion overtook it or what did
  wrote the same document (`Patches.PublishHealsIff`), and no publish is ever overtaken exactly while
  publishes keep the order of commits (`Patches.InOrderIffNoneOvertaken`).
- A restart drops the publisher's queue and the patches in flight, and nothing publishes the stored
  document again until the next patch: `Restarts.RestartLosesReachable`, with the exact conditions in
  `Restarts.RestartLosesIff` and `Restarts.RestartDropsPendingIff`.
- `ARCHITECTURE.md` says that reports are retained; the simulated device of the tests publishes them
  without the flag (`tests/integration/sim_device.py:122-123`). Then a bridge that loses its session
  may miss the newest report until the device reports again: `Sessions.UnretainedReportLost`, with the
  exact condition in `Sessions.ResubscribeKeepsIff`.
- The limit of ten failures a minute holds for sequential requests only; with k in flight it is 9 + k,
  and that is attained: `Throttle.WindowBoundAttained`.
- `params` may override a validated command name: `Ota.CmdValidIff`, `Ota.CmdOverrideWitness`.
- A device id with a slash can be registered but is never heard: `DeviceLog.SlashedIdUnheard`. Nor does
  any route take it, or the empty id, as a path parameter: registered through the body of
  `POST /devices` it can be neither patched, commanded nor deleted, its desired document stays empty and
  its row stays for good: `ControlPlane.UnaddressableIdStays`. `Delivery.SlashedIdConvergesIff` says what
  a desired document of such an id would meet, were there a way to write one. An id with `+` or
  `#` can be registered too, although no topic name may hold them: its publishes always raise and are
  dropped, and it is never heard either: `Delivery.WildcardIdUnserved`,
  `Delivery.WildcardIdConvergesIff`. The subscription of a device with the id `+` takes in the desired
  documents of all others: `Topics.DesiredHeardIff`, `Delivery.SendReachesIff`.
- Deleting a device leaves its last desired document and its retained report with the broker, and both
  reach the device or the shadow that is created next under the id: `Fleet.RecreatedKeepsPipeline`,
  `Sessions.RecreatedGetsOldReport`.
- The authentication hook calls itself side-effect free, but a refused request is recorded in the
  failure store: `Auth.DeviceAuth.InternalAuth`. The automatic registration that `ARCHITECTURE.md`
  describes is not in the code, and the model follows the code.

## Model

| member | source | states |
|---|---|---|
| Json.PyEqTransitive | app/shadow.py:41 | The inequality that decides drift is an equivalence on nested JSON: transitive across booleans, integers and floats (1, 1.0 and true are one value). |
| Json.PyEqSymmetric | app/shadow.py:41 | It does not matter on which side of the comparison the reported value stands. |
| Json.PyEqReflexive | app/shadow.py:41 | A value is never in drift against itself. |
| Json.PyEqIffSameCanonical | app/shadow.py:41 | Two values are equal iff their canonical forms are identical, with every number and truth value a double and containers taken item by item. |
| Json.TruthyIff | app/bridge.py:127 | What Python takes for false is a number equal to False, null, and the empty text, list and object, and nothing else. |
| Shadow.DeltaEmptyIffSatisfied | app/shadow.py:39-41 | The delta is empty iff reported has every desired value, where a desired null is met by an absent key. |
| Shadow.DeltaRepairs | app/shadow.py:39-41 | The delta has exactly the keys in drift, each with its desired value, and merging it into reported leaves nothing unmet. |
| Shadow.DeltaIsLeastRepair | app/shadow.py:39-41 | Adding part of the desired state to reported empties the delta iff that part has every key of the delta, so no repair is smaller than the delta. |
| Shadow.DeltaRespectsEquality | app/shadow.py:39-41 | Documents that are equal in Python have equal deltas. |
| Shadow.GetShadow | app/shadow.py:44-53 | 404 for an unknown id; otherwise both columns of the committed row, or empty documents without one, and a delta that takes its keys and values from desired and, merged into reported, satisfies it. |
| Shadow.LoadShadow | app/shadow.py:29-36 | Both columns of the row, or two empty documents. |
| Shadow.PatchDesired | app/shadow.py:56-79 | Alone: 404 changes nothing; otherwise exactly the desired and timestamp columns of one row change, to the old document updated by the patch, and a publish that the client accepts, on a topic without wildcards, enqueues the whole merged document, retained. |
| Patches.SoloPatch | app/shadow.py:56-79 | The four steps in a row have exactly the effect of the whole request. |
| Dicts.ConflationIff | app/shadow.py:63-64 | Merging a run of documents gives the newest iff no document of the run has a key the newest lacks. |
| Patches.DesiredIsMergeOfSubsequence | app/shadow.py:60-71 | In every interleaving the stored document is the merge of exactly its lineage, the patches from the latest commit back through the commit each one loaded: some of the patches committed for the id, in commit order, ending in the latest; empty before the first of a life. |
| Patches.KeyHoldsLatestOfLineage | app/shadow.py:60-71 | Key by key, in every run: the row holds what the latest patch of the lineage that names the key said, and nothing if none names it. |
| Patches.DesiredIsLastWrite | app/shadow.py:65-71 | Last write wins: the row holds what the latest commit of this life wrote. |
| Patches.StaleCommitIff | app/shadow.py:63-71 | A commit merges into the stored document iff its snapshot agrees with the row on every key the patch does not name. |
| Patches.StaleKeyIff | app/shadow.py:63-71 | The same key by key: a commit leaves a key as a merge into the stored document would iff the patch names it or the snapshot agrees with the row on it. |
| Patches.MergeOfAllIfNothingLost | app/shadow.py:60-71 | If no commit of this life lost anything the row is the merge of all its patches. |
| Patches.KeyHoldsLatestIfKept | app/shadow.py:60-71 | Key by key, whatever happened to other keys: if no commit since the latest patch of this life that names a key lost it, the row holds what that patch said, and nothing if none named it. |
| Patches.SerialisedExact | app/shadow.py:60-76 | With serialised patches the row is the merge of all patches since creation, every document written on the way is the merge up to it, and at most one request is past its load, carrying the stored document. |
| Patches.ConflationSafe | app/shadow.py:63-76 | With serialised patches, merging any subsequence of the documents of this life that ends with the newest yields exactly the stored document. |
| Patches.SyncedHeals | app/shadow.py:71-76 | With publishes in commit order, loads overlapping or not, once a publish is accepted the last accepted document is the stored one until the next commit, deletion or restart, however many were dropped before. |
| Patches.SerialisedInOrder | app/shadow.py:60-76 | Serialised patches publish in commit order. |
| Patches.PublishHealsIff | app/shadow.py:71-76 | In every run, an accepted publish leaves the stored document last iff since its own commit no other commit for the id and no deletion of it came, or the latest of these wrote the same document. |
| Patches.PendingDocument | app/shadow.py:63-76 | In every run the row holds the document of a pending publish until something overtakes it, and from then on what overtook it last. |
| Patches.InOrderIffNoneOvertaken | app/shadow.py:63-76 | One step further from a run in commit order: the order is kept iff no pending publish is overtaken. |
| Patches.PublishedWasCommitted | app/shadow.py:71-76 | Under any interleaving a published document was committed for that id. |
| Patches.LostUpdateReachable | app/shadow.py:60-71 | For any two patches a run of overlapping steps commits both and keeps only the second. |
| Patches.StalePublishReachable | app/shadow.py:71-76 | For any two patches a run that commits them one after the other, neither losing anything, with every publish accepted and no request left, stores their merge and ends with the first alone as the last accepted document. |
| Patches.OnePatch | app/shadow.py:56-79 | For every document some serialised run commits it, and nothing else, and has its publish accepted, so the claims about such runs are not empty. |
| Patches.OnePending | app/shadow.py:56-71 | The same up to the commit, with the publish still to come. |
| MqttPub.Publisher.Publish | app/mqtt_pub.py:36-45 | An accepted message on a topic without wildcards is appended to the queue with its retain flag; any other is dropped silently. |
| MqttPub.Publisher.PublishRetained | app/mqtt_pub.py:48-50 | The same with the retain flag set. |
| ControlPlane.AlwaysConsistent | app/db.py:11-39 | In every reachable state, restarts included, state ids equal device ids, shadow ids are among them, online is 0 or 1 and the default group exists. |
| ControlPlane.StepKeepsConsistent | app/registry.py:52-80 | Each step of the API and the bridge and each restart keeps that invariant. |
| ControlPlane.DesiredWriters | app/shadow.py:65-70 | The desired column changes only by a commit for its id or the deletion of its device, and then to exactly the committed merge or to empty. |
| ControlPlane.ReportedWriters | app/bridge.py:111-116 | The reported column changes only by a report routed to its id or the deletion of its device. |
| ControlPlane.RowWriters | app/registry.py:148-253 | A device's row after any step, column by column: certificate, password hash and creation time never change. |
| ControlPlane.RequestWriters | app/shadow.py:56-76 | A patch in flight after any step: begun for a registered device only, loaded from the row, merged into what it loaded, ended by its publish, by the refusal of its commit once the device is gone, or by a restart. |
| ControlPlane.GroupWriters | app/registry.py:224-253 | The groups after any step: a creation, a deletion or the start of the process changes them, and nothing else. |
| ControlPlane.CmdPublished | app/ota.py:107-133 | Which message a command or a callback publishes in a run, if any. |
| ControlPlane.BridgeLeavesDesired | app/bridge.py:111-116 | Erasing every bridge message from any interleaved run changes no desired document, no request in flight, no device and no group. |
| ControlPlane.PatchesLeaveReported | app/shadow.py:65-70 | Erasing every patch step from any interleaved run changes no reported document and no state row, whoever created the shadow row. |
| ControlPlane.NoEcho | app/bridge.py:156-168 | Whatever any step publishes, for any id, does nothing when routed back through the bridge, and it is retained iff it is desired state. |
| ControlPlane.ReachableViews | app/registry.py:86-107 | In every reachable state the online count equals the entries listed online, and group counts plus dangling devices equal the number of listed devices. |
| Db.Database.GetConnection | app/db.py:51-55 | A new connection starts from the committed tables. |
| Db.Database.InitDb | app/db.py:58-71 | An empty file gets the default group; an existing one keeps everything it has and gets the default group if it lacks it. |
| Registry.CreateDevice | app/registry.py:52-80 | 409 for an existing id; otherwise the device row and a fresh state row in the caller's transaction, nothing committed. |
| Registry.PostDevice | app/registry.py:148-165 | Commits both rows or neither; with consistent tables the only refusal is 409. |
| Registry.PatchDevice | app/registry.py:168-187 | 404 and no change, or exactly the given columns of one row written and every other kept. |
| Registry.PatchWrites | app/registry.py:175-183 | The device joins the group it is given and leaves any other, has the attributes it is given, keeps what is not given, and dangles after it iff the new group has no row. |
| Registry.PatchSplits | app/registry.py:175-183 | The two column updates are independent and touch nothing else. |
| Registry.DeleteDevice | app/registry.py:190-200 | 404 and no change for an unknown id; otherwise the row goes with its state and shadow, and nothing else does. |
| Registry.RecreatedIsFresh | app/registry.py:52-80 | Delete then create leaves a fresh state and an empty shadow and no trace on other devices and groups. |
| Registry.PostGroup | app/registry.py:224-237 | 409 for an existing group, otherwise one new row. |
| Registry.NewGroupListed | app/registry.py:206-237 | A new group is listed with its description and the devices that already name it. |
| Registry.DeleteGroup | app/registry.py:240-253 | 400 for the default group, 404 for an unknown one, otherwise members move to default and the row goes. |
| Registry.DeleteGroupMoves | app/registry.py:248-249 | The default group gains exactly the members of the deleted one; no device is lost and none names it. |
| Registry.DeleteGroupKeeps | app/registry.py:248-249 | No other column, membership or table changes and no device starts or stops dangling. |
| Registry.GroupConservation | app/registry.py:206-221 | Listed group counts and dangling devices add up to the device total. |
| Registry.DanglingChanges | app/db.py:16 | A new device dangles iff its group has no row; a new group adopts exactly the devices that already name it. |
| Registry.ListDevicesExact | app/registry.py:86-107 | One entry per device, strictly ascending by the code points of the id, with that device's flag, time, group and version and nothing else. |
| Registry.ListGroupsExact | app/registry.py:206-221 | One entry per group, strictly ascending by the code points of the id, with its description and the number of its members. |
| Registry.ViewsAgree | app/registry.py:259-273 | The online count equals the number of entries the device list marks online. |
| Order.AscendingUnique | app/registry.py:92 | The ascending listing of a set of ids is unique, so the list is determined. |
| Order.LessTrichotomy | app/registry.py:92 | The order compares any two ids in exactly one way. |
| Order.LessIffPrecedes | app/registry.py:92 | The order is by code point: the first that differs decides, and a prefix comes first. |
| Bridge.Consumer.RouteMessage | app/bridge.py:159-186 | Malformed shapes, ignored channels, non-objects and unknown channels change nothing; the rest is dispatched with exactly the specified tables and effects. |
| Bridge.RoutedByChannel | app/bridge.py:95-182 | Which of the four topics of a device, spelled out, reaches which handler, and which fields it is handed. |
| Bridge.OthersInert | app/bridge.py:159-186 | A message on any other topic, or with a payload that is no object, has no effect. |
| Bridge.Consumer.HandleTelemetry | app/bridge.py:95-100 | One write when metrics is an object, none otherwise. |
| Bridge.Consumer.HandleReported | app/bridge.py:107-122 | Replaces reported, keeps desired, sets both times; nothing at all for an unregistered id. |
| Bridge.Consumer.HandleStatus | app/bridge.py:125-156 | All of the status or none of it: unless the device is registered and every bound value can be stored no row changes; else one state row gets the flag, the time and the address and version named, null keeping the old; feedback follows unless an error escapes. |
| Bridge.StatusMeaning | app/bridge.py:125-146 | What a status leaves: online iff the message says so with a true value, an installed version before a running one, null keeping the old. |
| Bridge.FeedbackMeaning | app/bridge.py:152-156 | hawkBit hears of every installation and every failure with its reason, registered or stored or not, unless a wide integer escapes the handler before. |
| Bridge.UnregisteredInert | app/bridge.py:107-151 | A message for an unregistered id changes no row. |
| Bridge.RouteKeepsConsistent | app/bridge.py:107-151 | Every message keeps the store invariant. |
| Bridge.CloudTopicsInert | app/bridge.py:167-168 | Routing a command or desired topic of any id, slashes included, has no effect. |
| Bridge.RedeliveryHarmless | app/bridge.py:107-151 | Collapsing adjacent duplicate deliveries anywhere in a run leaves the same tables up to timestamps. |
| ControlPlane.RedeliveryHarmlessInRuns | app/bridge.py:107-151 | Collapsing bridge messages redelivered right after themselves, anywhere in a run of requests, patch steps, messages and restarts, leaves the same requests in flight and the same tables up to timestamps. |
| DeviceLog.StateIsScanOfLog | app/bridge.py:125-151 | Within a life of a device, restarts included, its state row equals a scan of the messages received in it: online iff the last status says so, last non-null address, last version named with an installed one before a running one, last status or report. |
| DeviceLog.SlashedIdUnheard | app/bridge.py:160-166 | For an id with a slash no message is ever attributed to it: nothing reported and a fresh state in every reachable state. |
| ControlPlane.UnaddressableIdStays | app/registry.py:168-200 | In every run of steps the routes can take, an id with a slash or an empty one has no patch in flight and an empty desired document, and is registered iff a request to register it was ever made. |
| DeviceLog.WildcardIdUnheard | app/bridge.py:160-166 | The same for an id with a wildcard, in every run whose messages have topics that can be published. |
| Topics.RebuildAccepted | app/bridge.py:160-166 | Every accepted topic is rebuilt exactly from its parsed id and channel, and a parsed id has no slash. |
| Topics.TopicsSpelled | app/shadow.py:76 | The desired, reported and command topics letter by letter. |
| Topics.RoundTripIffSlashFree | app/bridge.py:160-166 | A built topic always parses, and to the same pair iff the id has no slash. |
| Topics.SlashFreeTopicsDistinct | app/shadow.py:76 | Two slash-free ids share a topic iff ids and channels are equal. |
| Topics.ChannelTopicInjective | app/shadow.py:76 | On one channel any two ids have different topics, slashes or not. |
| Topics.PublishableIff | app/shadow.py:76 | The desired, reported or command topic of an id can be published iff the id holds no wildcard. |
| Topics.PlainHearsItself | tests/integration/sim_device.py:78 | A subscription without wildcards takes in its own topic and no other. |
| Topics.DesiredHeardIff | tests/integration/sim_device.py:78 | For publishable, slash-free b: the subscription of a takes in the desired topic of b iff a is b or a is the id +. |
| Topics.CmdIsNotDesired | app/ota.py:117 | No command topic is a desired topic. |
| Topics.CloudTopicsUnhandled | app/bridge.py:166-168 | Command and desired topics of every id parse to a channel no handler takes. |
| Topics.AclIffFirstLevel | app/auth.py:188-191 | The ACL allows exactly the topics whose first level is embediq; a missing topic is refused. |
| Topics.RoutingSubscriptionAclAgree | app/bridge.py:25 | A topic is routed iff it matches the subscription and has at least three levels, and the ACL allows all that match. |
| Auth.DeviceAuth.IsThrottled | app/auth.py:34-39 | Prunes the entries of the source to the window and answers whether ten or more are left. |
| Auth.DeviceAuth.RecordAuthFailure | app/auth.py:41-42 | Appends one time to the entries of the source and leaves other sources alone. |
| Auth.DeviceAuth.InternalAuth | app/auth.py:144-177 | 429 iff throttled; 200 iff not throttled and the bridge credential is set and given, or a nonempty certificate is that of some device, or a nonempty password verifies against the nonempty hash of the device named; else 403, which alone records a failure; no table changes. |
| Logins.PasswordFollowsRegistration | app/auth.py:164-173 | In every run, from its registration to its deletion a device logs in with a password iff it was registered with one and the given one verifies against the hash of that one. |
| Logins.CertificateFollowsRegistration | app/auth.py:157-163 | The certificate of a registration is accepted until the deletion. |
| Logins.DeletedIsRefused | app/registry.py:190-200 | After its deletion, until the id is registered again, no password logs a device in. |
| Logins.CertificateIff | app/auth.py:157-163 | A certificate is accepted iff it is not empty and some device of the run has it. |
| Throttle.PruningRefinesHistory | app/auth.py:34-39 | At any time not before the run's last step the pruned store answers as the complete failure log would. |
| Throttle.LockedOutIffTenthLatest | app/auth.py:34-39 | A source is locked out iff it has ten failures and its tenth latest is at most 60 seconds old. |
| Throttle.RejectedLeavesNoTrace | app/auth.py:151-153 | Removing a request answered 429 from a run leaves it valid and changes no later answer and no number in flight. |
| Throttle.LoadBound | app/auth.py:151-177 | Failures of the last 60 seconds plus requests in flight never exceed 9 + k when at most k are in flight. |
| Throttle.WindowBound | app/auth.py:151-177 | Every closed 60-second window of every run holds at most 9 + k recorded failures of such a source. |
| Throttle.StoredBound | app/auth.py:34-42 | Stored entries plus requests in flight never exceed 9 + k. |
| Throttle.WindowBoundAttained | app/auth.py:34-42 | For every k from 1 a valid run with at most k in flight records 9 + k failures in one window. |
| Throttle.SequentialBound | app/auth.py:24-42 | Requests that do not overlap never record more than ten failures in a window. |
| Throttle.ExpandIsInternalAuth | app/auth.py:144-177 | A whole request in a run changes the failure store as the method does. |
| Ota.DeviceCmd | app/ota.py:107-118 | 400 unless the command is reboot, rotate_cert or ota_check, 404 for an unknown device, otherwise one non-retained publish on the command topic, if accepted and the id holds no wildcard, carrying the command and every parameter. |
| Ota.HawkbitCallback | app/ota.py:125-134 | One non-retained ota_check for any id, if accepted and the id holds no wildcard, with the firmware, its address, checksum and version, null where not given. |
| Ota.CmdValidIff | app/ota.py:117 | A valid command reaches the device iff params has no cmd key or names a valid one itself; the very command sent iff params does not change it. |
| Ota.CmdOverrideWitness | app/ota.py:117 | A request that passes validation and publishes an unknown command. |
| Fleet.CloudIsRun | app/bridge.py:201-205 | The control plane inside the fleet is a run of the step system over the events it sees. |
| Fleet.PipelineCarriesLastAccepted | app/mqtt_pub.py:36-45 | Under any drops, retransmissions and interleavings the newest document of an id in queue or retained store is the last one accepted in this process life; in a run without restarts there is one iff one was accepted. |
| Fleet.PipelineHeals | app/shadow.py:71-76 | With publishes in commit order that document is the stored one from an accepted publish until the next commit, deletion or restart. |
| Restarts.RestartLosesIff | app/mqtt_pub.py:19-33 | With publishes in commit order and the last one accepted, after a restart and anything but a new patch or deletion the broker has the stored document iff nothing for the id was still to be sent, or only what it retained already. |
| Restarts.AfterRestart | app/mqtt_pub.py:19-33 | In every run a restart keeps the row and leaves the retained document as the newest, and nothing but a new patch or a deletion changes that. |
| Restarts.RestartDropsPendingIff | app/shadow.py:71-76 | With publishes in commit order and a patch committed and unpublished, the same holds iff the broker retained the very document of that patch before. |
| Restarts.RestartLosesReachable | app/shadow.py:71-76 | For every document two runs after which a restart leaves the broker without it and the row with it: its publish accepted and queued, or its commit made and not yet published. |
| Fleet.RetainedWasCommitted | app/shadow.py:71-76 | Under any interleaving queued and retained documents were committed for that id, and only desired topics are retained. |
| Fleet.RecreatedKeepsPipeline | app/registry.py:190-200 | Deleting and re-creating a device empties its shadow but leaves the document its successor will be given: the last one accepted, unless a restart lost it. |
| Delivery.ReportReaches | app/bridge.py:160-182 | A report changes the row of exactly one id, its own, and only if that id has no slash. |
| Sessions.ResubscribeKeepsIff | app/bridge.py:201-205 | After a report of a registered, slash-free device that nobody else reports for, a lost session of the bridge, alone or in a restart, keeps that report iff it was made with the retain flag, or an earlier one made with the flag is the same, or none ever was and the row holds it already; a lost one stays lost until the device reports again. |
| Sessions.ToldIsLastKept | ARCHITECTURE.md:55-64 | In every run the broker retains the last report the device made with the flag. |
| Sessions.UnretainedReportLost | tests/integration/sim_device.py:122-123 | For every document a run in which the device is given it and reports it without the flag and the bridge loses its session: everything is at rest, the document is stored, and the delta is empty only if all its values are null. |
| Sessions.RecreatedGetsOldReport | app/registry.py:190-200 | After a deletion and a new creation the shadow reports nothing, until the bridge subscribes again and takes the last report that the old device retained. |
| Delivery.QuietMeetsLastAccepted | tests/integration/sim_device.py:73-87 | A registered, slash-free device connects, or is connected when a publish for it is accepted. Under any interleaving and losses, once nothing of it is under way, whatever else the queue holds, its report meets the retained document, which is the last one accepted in this process life; with retained reports this holds through lost bridge sessions and, after a connect, through restarts. |
| Delivery.Convergence | app/shadow.py:39-79 | From either start, with publishes in commit order and the last one accepted, the shadow delta is then empty. |
| Delivery.ReconnectConverges | ARCHITECTURE.md:64 | Configuration survives an offline gap: with publishes in commit order and the last one accepted, every run of deliveries to any devices that brings the device to rest after it reconnects ends with an empty delta. |
| Delivery.PublishConverges | app/shadow.py:71-79 | With publishes in commit order, after a publish accepted for a connected device every run of deliveries to any devices that brings it to rest ends with an empty delta. |
| Delivery.EndToEnd | ARCHITECTURE.md:64 | For every document some run commits it alone, publishes it and has it accepted while the device is away; then the device connects, and a delivery run comes to rest with the document stored and a report that satisfies it. |
| Delivery.EndToEndOnline | app/shadow.py:56-79 | The same for a device that is connected when the publish of the patch is accepted. |
| Delivery.SlashedIdConvergesIff | app/bridge.py:160-166 | An id with a slash has an empty delta iff everything desired of it is null; over the routes nothing ever is desired of it. |
| Delivery.WildcardIdUnserved | app/mqtt_pub.py:36-45 | For an id with a wildcard no document is ever queued or retained, and whatever its subscription takes in, it never reports. |
| Delivery.SendReachesIff | tests/integration/sim_device.py:78 | When the document of a publishable, slash-free id is sent, a connected device is given it iff it has that id or the id +. |
| Delivery.DisconnectLoses | ARCHITECTURE.md:64 | A disconnect loses what was queued for the device and nothing else, and a new connection hands it what is retained for it. |
| Delivery.WildcardIdConvergesIff | app/mqtt_pub.py:36-45 | Likewise for an id with a wildcard. |
| Delivery.DeliveryDecreases | app/mqtt_pub.py:36-45 | Every delivery step strictly decreases a measure over queue, inbox and reports under way. |
| Delivery.DeliveryTerminates | app/mqtt_pub.py:36-45 | A run of delivery steps is no longer than the measure it starts with. |
| Delivery.DeliveryPossible | app/mqtt_pub.py:36-45 | While something is under way a delivery step is possible. |
| Delivery.DeliveryComesToRest | ARCHITECTURE.md:64 | For each device, from every state some delivery run within its measure brings it and the queue to rest. |
| FleetRest.AdvanceDecreases | app/mqtt_pub.py:36-45 | Every delivery to whichever device lowers the weight of all that is under way, fan-out to every connected device included. |
| FleetRest.FleetTerminates | app/mqtt_pub.py:36-45 | A run of deliveries to any devices is no longer than the weight it starts with. |
| FleetRest.FleetComesToRest | ARCHITECTURE.md:64 | From every state some run of deliveries within the weight leaves the queue, every inbox and every uplink empty at once. |
| FleetRest.FleetConverges | ARCHITECTURE.md:64 | In every run of deliveries that brings the fleet to rest, all undisturbed, slash-free devices whose publishes were in commit order with the last one accepted end with an empty delta together. |

## Left out

- FastAPI wiring, request validation, the response envelope, settings, the shared key of the internal
  endpoints and the admin login: glue without a claim over runs.
- hawkBit, InfluxDB and Loki: only the calls made to them are kept, as an effect log; `str()` of log
  and failure values is left to the receiver.
- Bcrypt, JWT and X.509 parsing, certificate status and `cert_rotations`: foreign cryptography and an
  append-only table.
- `get_device`: the same row reads as the list and the shadow view.
- Restarts in the throttle: they empty the failure store, so the runs of `Throttle` are within one
  process life. The cloud, the patches and the fleet are followed through restarts.
- Text affinity of SQLite: a status field that is a number is kept as the JSON scalar it was.
- NaN and infinities, lone surrogates and duplicate JSON keys.
- A database that stays locked, and lost appends inside the throttle helpers when threads interleave.
- Losses on the way from a device to the broker.
- Views over the tables (`ListDevices`, `ListGroups`) are ghost functions on values, not queries with
  a cursor.
- The admin UI, scripts, compose files and broker configuration.

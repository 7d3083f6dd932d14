# MTTL-W01 local bridge and relay: a verified model

A Dafny model of the parts of the MTTL-W01 local stack whose correctness is about whole runs or about two
pieces of code agreeing: the Home Assistant bridge, the one-shot firmware rule, the dashboard feed, the
telemetry parsers, and the packet and credential codecs. `dafny verify dfyconfig.toml` checks all of it.

Where the source keeps state in an object, the model has a class whose methods are proved equal to functions
on plain values; the theorems about runs are lemmas about those functions.

| files | component |
|---|---|
| `MacIdentity`, `SlugMap` | MAC acceptance, slugs, the sticky client_id -> MAC memory and its file |
| `Availability` | the UP / GRACE / DOWN machine |
| `Discovery` | topics and discovery configs |
| `BridgeModel`, `HaBridge` | one iteration of the bridge loop: as functions, and as the class that performs it |
| `BridgePublishing`, `BridgeOrdering`, `BridgeAvailability`, `BridgeTraffic` | what one iteration keeps |
| `BridgeRun`, `BridgeSafety` | runs with drops, reconnects, broker losses and restarts; the main theorems |
| `BridgeMirror` | what Home Assistant is told, read off the telemetry |
| `BridgeReturns`, `BridgeWeather`, `BridgeExact` | exactly when those hold, and runs from a fresh start in which they fail |
| `Commands`, `CommandMeaning` | commands from Home Assistant and their settlement; what each does, read off the message |
| `FirmwareOta`, `FirmwareService` | the one-shot firmware rule; exactly which requests it serves, read off the ARM lines |
| `DeviceEntry`, `DeviceMessages` | merging device states; messages folded into them |
| `FeedStore`, `FeedHistory` | the de-duplicating feed store; which recorded observations its entries come from |
| `Telemetry`, `TelemetryFields`, `RelayState` | the two parsers and command encoding; their readings, read off the raw fields; what the relay keeps of a client |
| `Base62`, `MqttPackets` | credential text; CONNECT and SUBSCRIBE bodies |
| `Text`, `Options`, `Orders` | string operations; optional values; iteration orders |

## How the environment is modelled

- **The connection.** A function `weather` says, for each moment at which the bridge may publish, whether the
  connection drops or comes back just before it. Connects, disconnects, a broker that changes its retained
  messages while it is away, and restarts of the bridge are steps between iterations. A weather may set in after any
  number of calm publishes. A message published while connected reaches the broker; a failed send is a drop.
- **Reference publishing.** The flag `eager` turns the bridge into one that publishes every value every time;
  the refinement theorem runs both side by side.
- **Sets and dictionaries.** Where Python leaves the iteration order of a set open, the method chooses any order
  and returns it, and the theorems hold for every order. `devices.json` is an ordered sequence of distinct keys.
- **Formatting, SHA-256, number parsing, the file system** are arbitrary functions handed in. A file write either
  replaces the whole content or fails, and the feed's read of its file succeeds or yields nothing; which of the two
  is an input of the step.
- **History fields** (`masked`, `cids`, `lastOffer`, `completed`, `serial`, `due`) record what happened so that
  theorems can speak of it; no branch reads them.
- The source's record `{"o","p","v","t","e","avail"}` of a slug is one map keyed by field, and the nine telemetry
  buckets of a device entry are one map keyed by bucket and key.

## Where the code does less than is promised

Each of these is kept as the code has it; a lemma exhibits it, and the promise is proved under an exact condition
where it has one.

- A topic can reach the broker before anything in that connection declares it:
  - if the connection comes back in the middle of an iteration; when every republish sees the devices that are there,
    in no other way (`OrderedIffNoReturns` for one iteration, `RunsOrderedIffNoReturns` for runs; a concrete iteration
    in `ReturnInMidIteration`). Drops anywhere do no harm.
  - if a republish finds a device missing from the snapshot that is still counted as up or in grace, and it comes
    back. Within one connection this is the only way (`OrderedIffRepublishSeesPresent`; a run from a fresh bridge in
    `DeviceMissesRepublish`). The feed makes it possible: when it cannot read its file it starts an empty one, and
    that is the only way a real client leaves the file (`ClientPresentIff`).
- A cached value can be withheld until the next republish if the connection comes back in the middle of an iteration,
  and only then (`SuppressionInvisibleIffNoReturns`, `RefinementIffNoReturns`).
- A Home Assistant republish that lands in a device's grace period announces it offline, and a return within grace
  emits no event, so it stays announced offline although it is up (`RepublishInGraceHidesReturn`,
  `HiddenReturnStaysHidden`; a run from a fresh bridge in `ReturnIsAnnouncedOffline`; exact in `AvailabilityIsTruthful`).
- SPENT is terminal exactly when no transfer is in flight (`SpentIsTerminalIff`): an incomplete transfer that ends
  later writes TRANSFERRING over it. The documentation calls SPENT terminal without this condition. `SpentIsLeft` is
  a run from deployment.
- A client_id beginning with `ip:` is taken for a temporary entry: keys stay in the store exactly if they do not begin
  so (`KeyStaysIff`), and what was recorded for such a client is lost without a trace (`PseudoNamedClientIsLost`).
- The empty client_id is never learned; its answers follow each claim unless the slug file already has a binding for
  it (`EmptyClientIdIsNotSticky`).
- A data prefix containing `/` makes every command topic unrecognisable (`CommandTopicReadBack`).
- An enable byte other than 00 and 01 is "disabled" for the dashboard and ignored by the relay (`CutoffsAgreeIff`).
- Ten base-62 characters are too few for eight bytes, so entity ids can collide (`EntityIdsCanCollide`).
- An absence first seen at clock time zero never expires (`TimedClosedForm`).
- `setdefault("first_seen", ..)` in the feed never takes effect, because on every reachable store the key is there
  (`SetDefaultIsIdle`): an entry has a first_seen exactly if telemetry was recorded for it, or for the temporary
  entry it took over (`MarksAreRecorded`).

## Model

| member | source | states |
|---|---|---|
| MacIdentity.CleanMacCanonical | bridge/ha_discovery.py:56-71 | Whatever shape is accepted, the result is twelve lower-case hexadecimal digits. |
| MacIdentity.SameMacInEveryShape | bridge/ha_discovery.py:45-71 | The bare, colon and hyphen shapes of one MAC, in either case and with any surrounding whitespace, give one identity. |
| MacIdentity.OnlyMacShapes | bridge/ha_discovery.py:45-71 | Nothing but those three shapes is accepted, so a label is never coerced into a MAC. |
| MacIdentity.SlugKind | bridge/ha_discovery.py:74-91 | The 13-character hash slug is used exactly when there is no clean MAC and can never equal a MAC slug. |
| MacIdentity.HashSlugs | bridge/ha_discovery.py:74-91 | A hash slug is d and twelve digits of the digest of the client_id. |
| StickyIdentity.SlugMap.constructor | bridge/mttl_ha_bridge.py:165-186 | A new process remembers exactly the clean bindings of the file. |
| StickyIdentity.SlugMap.Learn | bridge/mttl_ha_bridge.py:191-209 | Binds only a first clean MAC of a non-empty client_id, and writes the whole memory to the file when it can. |
| StickyIdentity.SlugMap.ResolveMac | bridge/mttl_ha_bridge.py:580-605 | Answers the binding if there is one, else the first clean claim, and learns only in the second case. |
| StickyIdentity.LoadAfterSave | bridge/mttl_ha_bridge.py:172-235 | Loading a saved memory restores it exactly. |
| StickyIdentity.DiskBindingsSurvive | bridge/mttl_ha_bridge.py:165-235 | Over any run with failed saves and restarts the disk's bindings are a subset of memory and, once there, stay. |
| StickyIdentity.StickyWithinProcess | bridge/mttl_ha_bridge.py:580-605 | After the first resolution of a non-empty client_id every later one in the process is the same. |
| StickyIdentity.StickyAcrossRestarts | bridge/mttl_ha_bridge.py:146-235 | A binding on disk answers for its client_id across any later learning, saving and restarting. |
| StickyIdentity.WritableStoreForgetsNothing | bridge/mttl_ha_bridge.py:206-235 | While saves succeed, memory and disk stay equal, restarts included. |
| StickyIdentity.RestartKeepsExactlyTheDisk | bridge/mttl_ha_bridge.py:165-186 | A restart keeps a binding exactly when it had reached the disk. |
| StickyIdentity.EmptyClientIdIsNotSticky | bridge/mttl_ha_bridge.py:191-209 | Nothing is learned for the empty client_id; its answers follow each claim exactly unless the file it was started from binds it. |
| StickyIdentity.MacComesFirst | bridge/mttl_ha_bridge.py:580-605 | A device that is not remembered is known by its mac if that is one, else by its device_id. |
| StickyIdentity.ResolvedSlugIsMac | bridge/mttl_ha_bridge.py:623-639 | Every slug the bridge acts on is the resolved MAC itself, never the hash. |
| Availability.AvailabilityMachine.Observe | bridge/mttl_ha_bridge.py:294-327 | The whole effect of one observation on slots, events and log, for any iteration order of the known set. |
| Availability.ClosedForm | bridge/mttl_ha_bridge.py:294-327 | A slug's state is a closed form of its history: never live, live last, or absent since a given sighting and expired or not. |
| Availability.TimedClosedForm | bridge/mttl_ha_bridge.py:305-326 | With a clock that never runs back, down means away for the grace period, exactly unless `since or now` forgets a zero time. |
| Availability.EventsAlternate | bridge/mttl_ha_bridge.py:305-326 | Events of a slug strictly alternate online, offline, online_republish, offline, and their number tells the announced state. |
| Availability.SlugsAreIndependent | bridge/mttl_ha_bridge.py:294-327 | The shared machine is one independent history per slug. |
| Availability.LogTellsChanges | bridge/mttl_ha_bridge.py:295-327 | The log of an observation tells exactly the changes of phase of the known slugs, and how long an absence in grace was. |
| Availability.EventsPerSlug | bridge/mttl_ha_bridge.py:295-327 | Each known slug has at most one event per observation, the one its own slot emits. |
| Discovery.BuildDiscovery | bridge/ha_discovery.py:121-205 | Builds ten or twenty configs, in the source's order. |
| Discovery.DeclaredExactlyWhatIsPublished | bridge/ha_discovery.py:151-203 | The declared state topics are exactly the fields that can be published, each once. |
| Discovery.StateTopicTexts | bridge/ha_discovery.py:121-203 | The topics end in outlet/0..4/state, power and energy /total and /1..4, voltage, temp/1..4 and availability. |
| Discovery.StateTopicsDistinct | bridge/mttl_ha_bridge.py:525-575 | Different slugs or fields give different topic texts, none of them the bridge's status topic. |
| BridgeMirror.PublishedIsTold | bridge/mttl_ha_bridge.py:264-275 | The published fields and texts are: ON or OFF for each switch reported; each watt meter; as total the reported one, else the sum of exactly the outlets that reported, if any did; once full telemetry was seen, the voltage, temperatures and energies. |
| BridgeMirror.EveryMessageIsTrue | bridge/mttl_ha_bridge.py:499-692 | In every run and weather, all that an iteration sends or retains is the bridge's status, a config of a field that a device of the snapshot has, its availability, or, for a device that is up before or after, a text its telemetry tells; no voltage is retained. |
| BridgeMirror.SilentFieldIsLeft | bridge/mttl_ha_bridge.py:516-569 | What no device tells, and everything of a device that is not up, is neither sent nor changed at the broker. |
| BridgeMirror.TickShowsTelemetry | bridge/mttl_ha_bridge.py:688-692 | In every run, after a state tick that ends connected the broker retains each reported switch, watt meter, total or sum, temperature and energy of every device that is up. |
| BridgeMirror.ChangeIsSent | bridge/mttl_ha_bridge.py:516-569 | While the connection holds, a tick sends whatever differs from what was last published, voltage included. |
| BridgeMirror.EverythingIsSent | bridge/mttl_ha_bridge.py:650-682 | While the connection holds, a device that comes online, is republished while up or is declared anew while up is shown in full, unchanged texts included. |
| BridgeMirror.UnchangedDeviceIsQuiet | bridge/mttl_ha_bridge.py:516-569 | While the connection holds, a tick sends nothing about a device whose texts are all as last published. |
| BridgeMirror.DeclaredAnewOnce | bridge/mttl_ha_bridge.py:666-673 | A device is declared anew exactly if its full report is not declared yet and there is a connection; else nothing changes. |
| BridgeRun.LiveIffRemembered | bridge/mttl_ha_bridge.py:619-648 | A slug is live exactly if the memory, grown by the snapshot, binds a live session to it, or the empty client_id is live and claims it. |
| BridgeRun.TickIsDue | bridge/mttl_ha_bridge.py:688-692 | In every run, states are published exactly if the interval has passed since they last were in this process. |
| HaBridge.HaClient.Publish | bridge/mttl_ha_bridge.py:499-501 | Publishes while connected and drops silently otherwise. |
| HaBridge.HaBridge.PublishDiscovery | bridge/mttl_ha_bridge.py:503-508 | Sends every config and records the v/t/p/e flag even when they were dropped. |
| HaBridge.HaBridge.PublishDeviceState | bridge/mttl_ha_bridge.py:516-569 | Publishes and caches each shown field that changed, gated on vtpe_seen; voltage is not retained. |
| HaBridge.HaBridge.SetAvailability | bridge/mttl_ha_bridge.py:571-576 | Announces an availability that differs from the cached one. |
| HaBridge.HaBridge.Republish | bridge/mttl_ha_bridge.py:650-664 | After a reconnect, clears the caches and republishes every device. |
| HaBridge.HaBridge.DeclareVtpe | bridge/mttl_ha_bridge.py:666-673 | Declares the extra entities of a device once its full telemetry has been seen. |
| HaBridge.HaBridge.HandleEvents | bridge/mttl_ha_bridge.py:675-684 | Turns the machine's events into declarations, announcements and forced republishing. |
| HaBridge.HaBridge.StateTick | bridge/mttl_ha_bridge.py:688-692 | Publishes the changed fields of the devices that are up. |
| HaBridge.HaBridge.ResolveDevices | bridge/mttl_ha_bridge.py:619-640 | Resolves a snapshot to devices and the slug -> client_id table, deferring those without a MAC. |
| HaBridge.HaBridge.ResolveLive | bridge/mttl_ha_bridge.py:642-648 | Finds the live slugs, and learns nothing that the snapshot pass had not. |
| HaBridge.HaBridge.Iterate | bridge/mttl_ha_bridge.py:609-692 | One iteration of the loop does exactly the step over which the run theorems quantify. |
| BridgePublishing.IterateAgrees | bridge/mttl_ha_bridge.py:499-576 | An iteration keeps cache and broker in agreement, wherever the connection drops or returns in it. |
| BridgePublishing.IterateAlike | bridge/mttl_ha_bridge.py:516-576 | An iteration leaves the suppressing bridge and the unconditional one with the same broker. |
| BridgeReturns.OrderedIffNoReturns | bridge/mttl_ha_bridge.py:650-692 | Every iteration from every bridge at rest keeps discovery before state, if and only if the connection never comes back within one. |
| BridgeReturns.SuppressionInvisibleIffNoReturns | bridge/mttl_ha_bridge.py:516-576 | Every iteration from every bridge whose cache agrees with its broker leaves what unconditional publishing would, if and only if the same. |
| BridgeOrdering.IteratePromised | bridge/mttl_ha_bridge.py:650-692 | An iteration keeps discovery before state, and every slug that is up or in grace cached, provided a republish sees those. |
| BridgeOrdering.ReturnInMidIteration | bridge/mttl_ha_bridge.py:675-682 | A concrete iteration in which the returning connection delivers an undeclared topic. |
| BridgeAvailability.IterateTruthful | bridge/mttl_ha_bridge.py:571-684 | An iteration keeps the cached availability equal to the machine's state, up to the masked slugs. |
| BridgeRun.CacheAgreesWithBroker | bridge/mttl_ha_bridge.py:499-576 | In every run, while connected with no republish pending, each cached retained value is the broker's. |
| BridgeRun.SuppressionRefinesAlwaysPublishing | bridge/mttl_ha_bridge.py:499-692 | Through iterations, drops, reconnects, broker losses and restarts the broker retains what always-publishing would leave, unless the connection returns within an iteration. |
| BridgeWeather.RefinementIffNoReturns | bridge/mttl_ha_bridge.py:499-692 | For every weather, whenever it sets in: from a fresh start both bridges leave the same broker at every moment of every run if and only if it never returns within an iteration. |
| BridgeRun.TickMirrorsEntries | bridge/mttl_ha_bridge.py:688-692 | After a state tick that ends connected, the retained topics of every device that is up show its whole entry. |
| BridgeRun.ResolveAllIdentifies | bridge/mttl_ha_bridge.py:619-640 | The pass over a snapshot yields distinct canonical slugs that fit the grown memory, each with the telemetry of its own entry. |
| BridgeSafety.DiscoveryBeforeState | bridge/mttl_ha_bridge.py:503-692 | In every run whose republishes see the present devices, each state or availability message of a connection follows a config naming its topic in that connection. |
| BridgeSafety.NothingVanishesSuffices | bridge/mttl_ha_bridge.py:619-664 | That is so whenever no client_id ever leaves the snapshot and the empty one, which is never learned, keeps its claim. |
| BridgeExact.OrderedIffRepublishSeesPresent | bridge/mttl_ha_bridge.py:650-692 | After any reachable republish, everything until the next connection is declared before it is shown, if and only if its snapshot had every device then up or in grace. |
| BridgeWeather.RunsOrderedIffNoReturns | bridge/mttl_ha_bridge.py:503-692 | For every weather, whenever it sets in: all runs from a fresh start whose republishes see the present devices are ordered if and only if it never returns within an iteration. |
| BridgeExact.DeviceMissesRepublish | bridge/mttl_ha_bridge.py:650-692 | A run from any fresh start in which a device back after missing a republish is shown undeclared. |
| BridgeSafety.AvailabilityIsTruthful | bridge/mttl_ha_bridge.py:571-684 | In every run a cached availability is online exactly for a slug up or in grace that is not masked by a republish in grace. |
| BridgeSafety.OnlineExactlyWhenPresent | bridge/mttl_ha_bridge.py:571-684 | Without a republish in grace, online means up or in grace. |
| BridgeSafety.RepublishInGraceHidesReturn | bridge/mttl_ha_bridge.py:655-661 | A republish that finds a device in grace announces it offline even as it returns. |
| BridgeSafety.HiddenReturnStaysHidden | bridge/mttl_ha_bridge.py:656-684 | It stays announced offline while it is live and nothing republishes. |
| BridgeExact.ReturnIsAnnouncedOffline | bridge/mttl_ha_bridge.py:650-684 | A run from any fresh start after which the device is up and the broker retains "offline". |
| BridgeSafety.NoHashSlugOnTheWire | bridge/mttl_ha_bridge.py:623-647 | In every run every topic that reaches the broker carries a canonical MAC. |
| Commands.CommandTopicReadBack | bridge/mttl_ha_bridge.py:399-400 | The command topic discovery announces is parsed back exactly when the prefix is one non-empty level. |
| Commands.CommandDesk.OnHaMessage | bridge/mttl_ha_bridge.py:465-495 | Injects an accepted command once and records it as pending; anything else changes nothing. |
| Commands.CommandDesk.CheckPending | bridge/mttl_ha_bridge.py:705-734 | Sends due one-shots and settles confirmed and expired commands. |
| CommandMeaning.CommandIsCarriedOut | bridge/mttl_ha_bridge.py:465-495 | Every padded or mixed-case ON or OFF on an announced topic of a known device appends one inject for that outlet and value, addressed iff several devices are known, and awaits that value until the timeout, with the one-shot delay of the strip or of an outlet. |
| CommandMeaning.OnlyCommandsAct | bridge/mttl_ha_bridge.py:465-480 | Whatever changes anything is not retained, spells ON or OFF, and names a known device on an announced topic. |
| CommandMeaning.CheckSettlesAsShown | bridge/mttl_ha_bridge.py:705-734 | In every run a check reports a command applied exactly if the telemetry shows the commanded value (and, for the strip, the status was asked for), else timed out exactly if its deadline has come, else keeps it. |
| Commands.CommandsInjectedOnce | bridge/mttl_ha_bridge.py:465-734 | In every run: one power inject per accepted command, at most one STATUS_GET each, and each is pending or settled exactly once. |
| Commands.AllCommandHasExactlyOneStatusGet | bridge/mttl_ha_bridge.py:488-735 | A settled All command whose one-shot was due by its deadline had exactly one. |
| Commands.NoPendingOutlivesItsDeadline | bridge/mttl_ha_bridge.py:731-734 | No pending command survives the first check at or after its deadline. |
| FirmwareOta.ParseArm | relay/rules/15-firmware-ota.py:189-195 | Reads the key=value lines of an ARM file. |
| FirmwareOta.ArmAssignment | relay/rules/15-firmware-ota.py:189-195 | A written key=value line says that value, and the last line for a key wins. |
| FirmwareOta.OtaRule.OnHttpRequest | relay/rules/15-firmware-ota.py:397-410 | Dispatches a request by its path without query. |
| FirmwareOta.OtaRule.HandleVersionCheck | relay/rules/15-firmware-ota.py:271-311 | Answers an OFFER, or blocks, and stores the offer only if the write succeeds. |
| FirmwareOta.OtaRule.HandleFirmwareGet | relay/rules/15-firmware-ota.py:314-392 | Answers a stream under the offer on file, or blocks. |
| FirmwareOta.OtaRule.OnStreamDone | relay/rules/15-firmware-ota.py:248-266 | A full transfer records SPENT and renames ARM away; any other records TRANSFERRING. |
| FirmwareService.OtherLinesSayNothing | relay/rules/15-firmware-ota.py:189-195 | Blank lines, comments and lines without = do not count. |
| FirmwareService.PaddedLineSaysTheSame | relay/rules/15-firmware-ota.py:189-195 | Nor does white space around a line, its key or its value. |
| FirmwareService.OfferedIff | relay/rules/15-firmware-ota.py:180-311 | In every run a version check is answered with version and name of the ARM lines written last if and only if it is the target's GET, they are complete, before their expiry, match the image, and nothing was spent; all others are refused. |
| FirmwareService.StreamedIff | relay/rules/15-firmware-ota.py:227-377 | In every run a download is served if and only if it asks, with any query, for one of the two paths of those lines, which are still good, and follows an offer to the target: under its origin, or without one within 120 seconds. |
| FirmwareService.ServedInTime | relay/rules/15-firmware-ota.py:207-215 | In every run whatever is served is served strictly before the time of expiry on file. |
| FirmwareService.TransferEnds | relay/rules/15-firmware-ota.py:248-266 | The end of a transfer records SPENT exactly if a non-empty image was sent completely, and TRANSFERRING otherwise. |
| FirmwareOta.ServedAsArmed | relay/rules/15-firmware-ota.py:178-377 | In every run whoever is served is the configured, undenied target, and what it gets is the image whose digest the operator wrote last, not used up since. |
| FirmwareOta.OneShot | relay/rules/15-firmware-ota.py:167-175 | After a full transfer and a successful rename every request is refused until the operator arms, in every interleaving. |
| FirmwareOta.SpentIsTerminalIff | relay/rules/15-firmware-ota.py:248-266 | SPENT persists through all continuations exactly when no transfer is in flight. |
| FirmwareOta.SpentIsLeft | relay/rules/15-firmware-ota.py:248-266 | A run from deployment that reaches SPENT with a transfer in flight, and leaves it. |
| FirmwareOta.SerialRunsAreOneShot | relay/rules/15-firmware-ota.py:248-332 | With one transfer at a time SPENT is absorbing even if the rename fails or ARM is rewritten, and one full transfer is recorded. |
| FirmwareOta.StoredOfferIsTheLatest | relay/rules/15-firmware-ota.py:248-377 | From an absent state file the stored offer always is the latest OFFER, and was made to the target. |
| FirmwareOta.EveryStreamWasOffered | relay/rules/15-firmware-ota.py:339-377 | Every stream follows an OFFER to the target, within 120 seconds of the latest if the request has no origin header. |
| FirmwareOta.OffersAreRecorded | relay/rules/15-firmware-ota.py:299-311 | The history records an offer exactly when one is answered. |
| DeviceEntry.MergeEntry | dashboard/mttl_telemetry.py:300-327 | Folds one device state into another field by field. |
| DeviceEntry.MergeAssociative | dashboard/mttl_telemetry.py:300-327 | Merging is associative. |
| DeviceEntry.MergeIdempotent | dashboard/mttl_telemetry.py:300-327 | Merging an entry with itself changes nothing. |
| DeviceEntry.MergeKeepsEverything | dashboard/mttl_telemetry.py:300-327 | Every known name and telemetry cell of either side is kept, the destination's first. |
| DeviceEntry.MergeTakesTheFreshest | dashboard/mttl_telemetry.py:300-320 | The later of two times, the earlier first sighting, the larger counts, any mark, and the destination's voltage where it has one. |
| DeviceEntry.GroupingDoesNotMatter | dashboard/mttl_telemetry.py:300-327 | Folding any number of entries is independent of grouping. |
| DeviceEntry.MergeDeltaInto | dashboard/mttl_telemetry.py:330-354 | Folds what one message says into an entry, by the loops of the source. |
| DeviceMessages.ParseOneM2M | dashboard/mttl_telemetry.py:120-268 | Assembles the delta of a message: bootstrap, or readings with the lists beside them, or nothing. |
| DeviceMessages.DeltaSaysTheMessage | dashboard/mttl_telemetry.py:161-268 | Cell by cell the delta is what the parameters and the valid lists say. |
| DeviceMessages.CellsByName | dashboard/mttl_telemetry.py:161-268 | Eight dictionaries hold under "0".."4" what was read for each selector. |
| DeviceMessages.WifiByName | dashboard/mttl_telemetry.py:167-173 | The ninth holds network name and strength under names of their own. |
| DeviceMessages.BootstrapIsHeard | dashboard/mttl_telemetry.py:124-132 | A bootstrap marks the entry as bootstrapped and connected and names its id and type, MULTITAP if it gives none. |
| DeviceMessages.ReportIsHeard | dashboard/mttl_telemetry.py:146-154 | A cmd_report is kept and counts as a sighting; a message that carries nothing leaves no trace. |
| DeviceMessages.CellIsLastValidValue | dashboard/mttl_telemetry.py:161-354 | Over any messages each cell of the stored entry is the last valid value carried for it. |
| DeviceMessages.VoltageIsLastValidValue | dashboard/mttl_telemetry.py:236-347 | Over any messages the voltage is that of the last valid v. |
| DeviceMessages.VtpeSeenMeansOneFullReport | dashboard/mttl_telemetry.py:256-345 | The marker is set exactly if one single message carried v, t, p and e, all valid, and never unset. |
| DeviceMessages.MalformedListsLeaveNoTrace | dashboard/mttl_telemetry.py:59-70 | Over any messages malformed lists leave the entry as if they had not been there. |
| DeviceMessages.ValidPDecidesTheMeters | dashboard/mttl_telemetry.py:247-250 | A valid p decides all stored meters, over the parameters and whatever was stored. |
| FeedStore.DeviceFeed.GetEntry | relay/rules/10-dashboard-feed.py:87-104 | Finds or makes the entry for an observation, merging the address's temporary entry into a client's. |
| FeedStore.DeviceFeed.PruneStore | relay/rules/10-dashboard-feed.py:80-84 | Drops temporary entries whose address a client has. |
| FeedStore.DeviceFeed.RecordUpdate | relay/rules/10-dashboard-feed.py:59-124 | Records one observation, over an empty store if the file cannot be read, and leaves the file as it was if the save fails. |
| FeedStore.AlwaysDeduplicated | relay/rules/10-dashboard-feed.py:80-124 | On every reachable store no temporary entry shares a client's address, keys equal client_ids, and pruning removed nothing. |
| FeedStore.PruneRemovesNothing | relay/rules/10-dashboard-feed.py:80-84 | Pruning after an observation never has anything to remove. |
| FeedStore.IdentityReachesTheClient | relay/rules/10-dashboard-feed.py:87-124 | The last mac, serial or model recorded at an address reaches the first client observed there, whatever else is seen in between, unless it says or had its own. |
| FeedStore.ClientPresentIff | relay/rules/10-dashboard-feed.py:59-124 | A client is in the store exactly if it was recorded and no unreadable file has been written over since. |
| FeedStore.KeyStaysIff | relay/rules/10-dashboard-feed.py:80-104 | While files can be read, a key stays through every continuation exactly if it does not begin with ip:. |
| FeedStore.PseudoNamedClientIsLost | relay/rules/10-dashboard-feed.py:80-84 | A client named ip:... is gone once another is observed at its address, and the store is as if it had never been recorded. |
| FeedStore.SetDefaultIsIdle | relay/rules/10-dashboard-feed.py:129-171 | On every reachable store every entry has the key first_seen, also the one a hook is given, so that the hooks' setdefault changes nothing. |
| FeedHistory.CellIsRecorded | relay/rules/10-dashboard-feed.py:87-172 | On every reachable store a telemetry cell is there exactly if a recorded message, of the key or of the temporary entry it took over, carried it since the file was last lost; it holds a value so carried, and the last one carried for the key itself if there is one. |
| FeedHistory.VoltageIsRecorded | relay/rules/10-dashboard-feed.py:87-172 | So does the voltage. |
| FeedHistory.MarksAreRecorded | relay/rules/10-dashboard-feed.py:107-172 | On every reachable store an entry is dated, has seen full telemetry, is connected or is bootstrapped exactly if an observation that says so was recorded for it, or for the temporary entry it took over, and no unreadable file written over since. |
| FeedHistory.SessionsAreCounted | relay/rules/10-dashboard-feed.py:144-156 | On every reachable store session_epoch counts the recorded session starts, from the larger count at a take-over, and all but the first are reconnects. |
| FeedHistory.JustRecorded | relay/rules/10-dashboard-feed.py:107-181 | What one observation writes: the times, topic, last command, address and client_id. |
| FeedHistory.JustIdentified | relay/rules/10-dashboard-feed.py:129-172 | What it says of mac, serial and model replaces what was there; telemetry alone dates; a session start counts as a reconnect only of a connected entry. |
| Telemetry.WriteAll | dashboard/mttl_telemetry.py:189-224 | The loops over selectors write what a parameter says about each. |
| Telemetry.ParseForDashboard | dashboard/mttl_telemetry.py:161-224 | The dashboard's loop yields, per selector, the last parameter that speaks, with the POWER_EVENT fan-out. |
| Telemetry.ParseForRelay | relay/rules/99-default.py:329-430 | The relay's differently ordered loop, with its own tables and records, yields per selector the last parameter that speaks, the selectors of its status reports, and the switches it could not read. |
| Telemetry.ParsersAgree | relay/rules/99-default.py:265-430 | Apart from the cutoffs the two parsers, each with its own tables, read the same on every parameter list. |
| Telemetry.SwitchesReadOrNoted | relay/rules/99-default.py:352-381 | Every switch field is either read or noted as malformed, never both. |
| Telemetry.LastMeans | dashboard/mttl_telemetry.py:184-224 | Last write wins: a value is read exactly when some parameter says it and no later one speaks. |
| TelemetryFields.PowerIsLastSwitch | dashboard/mttl_telemetry.py:175-187 | For either parser a switch is FF or 00 as the last parameter that speaks for it says, in either case of letters and padded or not. |
| TelemetryFields.OnlyTheStripFansOut | dashboard/mttl_telemetry.py:175-187 | A POWER_EVENT for the strip sets all five switches; no other command sets more than its own. |
| TelemetryFields.MeterIsLastField | dashboard/mttl_telemetry.py:189-194 | For either parser a hundred times the watts is the hexadecimal number in the last readable meterN_02 of a METER_CUR or status parameter; without one there is no value. |
| TelemetryFields.EnergyIsLastField | dashboard/mttl_telemetry.py:195-200 | The energy is that of the last readable meterN_00 of a METER_ACC parameter. |
| TelemetryFields.AlarmIsLastField | dashboard/mttl_telemetry.py:217-224 | The alarm of a selector is the last readable code of an ALARM_EVENT. |
| TelemetryFields.AlarmCodes | relay/rules/99-default.py:265-296 | Recoveries are events and normal as states; all other known codes are the same in both, unknown ones stay unknown. |
| TelemetryFields.StandbyIsLastField | dashboard/mttl_telemetry.py:211-215 | DEVICE_STATUS sets the standby of outlets 1 to 4 only. |
| TelemetryFields.WifiIsLastField | dashboard/mttl_telemetry.py:167-173 | The last name and the last strength of any parameter count, readable and unreadable strengths apart. |
| TelemetryFields.ListIsValidIff | dashboard/mttl_telemetry.py:59-70 | A list is valid exactly if it has the expected number of hexadecimal pieces, and its values are theirs. |
| Telemetry.CutoffsAgreeIff | relay/rules/99-default.py:317-326 | The two readings of a cutoff agree exactly if the last setting has enable byte 00 or 01, or the last one that has says disabled with the same threshold, or there is none. |
| Telemetry.CleanSettingsParseAlike | dashboard/mttl_telemetry.py:202-209 | With enable bytes 00 and 01 only, the two parsers agree on everything. |
| Telemetry.ParseMessage | dashboard/mttl_telemetry.py:236-267 | Adds the valid ones of v, t, p and e to the parameters' meaning. |
| Telemetry.ListsOverParameters | dashboard/mttl_telemetry.py:236-267 | Malformed lists change nothing; a valid p decides all five meters; without it the meters are the relay's. |
| Telemetry.HexListRoundTrip | dashboard/mttl_telemetry.py:59-70 | A list written in hexadecimal is read back, and only at its own length. |
| Telemetry.PowerCommandReadBack | relay/rules/99-default.py:610-618 | Every accepted power command is read back by both parsers as exactly that switch, without fan-out. |
| Telemetry.CutoffCommandReadBack | relay/rules/99-default.py:596-608 | Every threshold 0..0xFFFFFF with either flag is read back unchanged by both parsers. |
| RelayState.Relay.OnBootstrap | relay/rules/99-default.py:177-189 | A bootstrap resets the client's completeness. |
| RelayState.Relay.HandleTelemetry | relay/rules/99-default.py:457-497 | A report updates the client's readings and accumulates its selectors. |
| RelayState.ReadingIsAllParameters | relay/rules/99-default.py:457-489 | In every run the relay holds of a client what all its parameters say, the last one for each reading counting, and the last id a bootstrap gave. |
| RelayState.StatusCompletenessIsExact | relay/rules/99-default.py:491-497 | In every run status_complete means all five selectors were reported since the latest bootstrap, and the missing list is the sorted rest. |
| Base62.Encode | relay/rules/99-default.py:41-47 | Writes exactly the given number of base-62 digits, of value n mod 62^length. |
| Base62.CharsOfTheAlphabet | relay/rules/99-default.py:38 | The digits are 0-9, a-z, A-Z in this order. |
| Base62.CollisionsExactly | relay/rules/99-default.py:41-47 | Texts are equal exactly for numbers equal modulo 62^length: injective below it, colliding from there on. |
| Base62.EntityIdsCanCollide | relay/rules/99-default.py:56-57 | Two different eight-byte seeds share one ten-character entity id. |
| MqttPackets.BuildConnect | bridge/mttl_mqtt_client.py:51-74 | Builds the CONNECT body step by step. |
| MqttPackets.BuildSubscribe | bridge/mttl_mqtt_client.py:77-81 | Builds the SUBSCRIBE body filter by filter. |
| MqttPackets.VariableHeaders | bridge/mttl_mqtt_client.py:43-81 | A CONNECT begins with the name MQTT, level 4, the flags and the keepalive, as in section 3.1.2; a SUBSCRIBE with its identifier. |
| MqttPackets.ConnectRoundTrip | bridge/mttl_mqtt_client.py:43-74 | Reading a CONNECT body in the order of sections 3.1.2 and 3.1.3 of MQTT 3.1.1 returns every field exactly when all of them fit. |
| MqttPackets.SubscribeRoundTrip | bridge/mttl_mqtt_client.py:77-81 | So does a SUBSCRIBE body in the order of section 3.8.3, for every list of filters. |
| MqttPackets.PidsAreFresh | bridge/mttl_mqtt_client.py:161-171 | Packet identifiers are never zero, fit 16 bits, and do not recur within 65535. |

## Left out

- Sockets, TLS, threads, backoff and packet framing: only the connected and republish flags and the packet bodies are modelled.
- Races inside one bridge iteration, such as the slug table being rebuilt while a command arrives: each handler and iteration is one step, apart from the connection.
- The command half of `HaBridge` is its own class, `CommandDesk`, which is given the slug table instead of sharing it.
- The periodic list request and STATUS_GET of the loop: they do not touch the state the theorems speak of.
- `StateReader`: an iteration is given the snapshot it returned, without `ip:` keys.
- `_bool_map` and `_num_map`: entries hold maps already keyed by integers; temperatures and energies are visited in ascending key order.
- QoS of published messages, the SUBSCRIBE sent after a republish, and logging, including the rate limit of MAC conflict warnings.
- Floating point: watts, volts, degrees, kWh and times are reals.
- JSON values other than strings in text positions: a field holds the text `str()` gives.
- Upper-casing beyond ASCII letters in payloads and settings.
- The regular expressions for command names: a command is a datatype value with its selector.
- Extracting the address from the relay's connection id: requests and observations carry the address.
- Malformed JSON inside the firmware progress file: a file is absent or well-formed.
- Deletion of state files and edits of the slug map by hand.
- oneM2M envelopes, base64, session ids and resource numbering of the relay: a message is given as its parameters and its cmd_report.
- HTML dashboard, QMS sink, tools and deployment scripts: they would only add easy members.

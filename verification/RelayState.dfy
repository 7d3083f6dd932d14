/** What the relay remembers of each client, and when a client's status is complete
    (relay/rules/99-default.py, on_message and _handle_telemetry). */
module RelayState {
  import opened Options
  import opened Telemetry

  type ClientId = string

  const REQUIRED: set<Sel> := {0, 1, 2, 3, 4}

  predicate IsComplete(seen: set<Sel>) {
    REQUIRED <= seen
  }

  /** status_complete and status_missing_selectors; absent until first written. */
  datatype Status = Status(complete: bool, missing: seq<Sel>)

  datatype ClientState = ClientState(seen: set<Sel>, status: Option<Status>, deviceId: string, reading: RelayReading)

  const NEW_CLIENT := ClientState({}, None, "", Silent())

  type Store = map<ClientId, ClientState>

  function StateOf(store: Store, client: ClientId): ClientState {
    if client in store then store[client] else NEW_CLIENT
  }

  /** The selectors from n on that are not in the set, in order. */
  function MissingFrom(seen: set<Sel>, n: nat): (m: seq<Sel>)
    requires n <= 5
    ensures forall k: Sel :: k in m <==> n <= k && k !in seen
    ensures forall i :: 0 <= i < |m| ==> n <= m[i]
    ensures forall i, j :: 0 <= i < j < |m| ==> m[i] < m[j]
    decreases 5 - n
  {
    if n == 5 then [] else (if n in seen then [] else [n]) + MissingFrom(seen, n + 1)
  }

  /** sorted(required - seen) */
  function Missing(seen: set<Sel>): (m: seq<Sel>) {
    MissingFrom(seen, 0)
  }

  /** bucket.update(new_values) */
  function UpdateReading(prev: RelayReading, r: RelayReading): RelayReading {
    Reading(prev.power + r.power, prev.meterWatts + r.meterWatts, prev.energyRaw + r.energyRaw,
            prev.alarms + r.alarms, prev.cutoffs + r.cutoffs, prev.standby + r.standby,
            Wifi(if r.wifi.ssid.Some? then r.wifi.ssid else prev.wifi.ssid,
                 if r.wifi.rssiDbm.Some? then r.wifi.rssiDbm else prev.wifi.rssiDbm,
                 if r.wifi.rssiRaw.Some? then r.wifi.rssiRaw else prev.wifi.rssiRaw))
  }

  function Booted(st: ClientState, deviceId: string): ClientState {
    st.(deviceId := if deviceId != "" then deviceId else st.deviceId,
        seen := {},
        status := Some(Status(false, [0, 1, 2, 3, 4])))
  }

  function Reported(st: ClientState, r: RelayReading, selectors: set<Sel>): ClientState {
    var seen := st.seen + selectors;
    st.(reading := UpdateReading(st.reading, r), seen := seen, status := Some(Status(IsComplete(seen), Missing(seen))))
  }

  datatype Event =
    | Bootstrap(client: ClientId, deviceId: string)
    | Telemetered(client: ClientId, params: seq<Param>)

  /** A message without client_id, or without parameters, leaves the store alone. */
  function After(num: Numerals, store: Store, e: Event): Store {
    if e.client == "" || (e.Telemetered? && e.params == []) then store
    else
      match e
      case Bootstrap(client, deviceId) => store[client := Booted(StateOf(store, client), deviceId)]
      case Telemetered(client, params) =>
        store[client := Reported(StateOf(store, client), Meaning(num, params, RELAY), ReportedSelectors(params))]
  }

  class Relay {
    const num: Numerals
    var states: Store

    constructor (num: Numerals)
      ensures this.num == num && states == map[]
    {
      this.num := num;
      states := map[];
    }

    method OnBootstrap(client: ClientId, deviceId: string)
      modifies this
      ensures states == After(num, old(states), Bootstrap(client, deviceId))
    {
      if client == "" {
        return;
      }
      var st := StateOf(states, client);
      st := st.(deviceId := if deviceId != "" then deviceId else st.deviceId);
      st := st.(seen := {}, status := Some(Status(false, [0, 1, 2, 3, 4])));
      states := states[client := st];
    }

    method HandleTelemetry(client: ClientId, params: seq<Param>)
      modifies this
      ensures states == After(num, old(states), Telemetered(client, params))
    {
      hide Meaning, ReportedSelectors, UpdateReading;
      if params == [] {
        return;
      }
      var reading, selectors, _ := ParseForRelay(num, params);
      if client == "" {
        return;
      }
      var st := StateOf(states, client);
      st := st.(reading := UpdateReading(st.reading, reading));
      var seen := st.seen + selectors;
      st := st.(seen := seen, status := Some(Status(IsComplete(seen), Missing(seen))));
      states := states[client := st];
    }
  }

  // ---- completeness over a whole run ------------------------------------------------

  function Run(num: Numerals, events: seq<Event>): Store {
    if events == [] then map[] else After(num, Run(num, events[..|events| - 1]), events[|events| - 1])
  }

  /** The last bootstrap of a client, or -1. */
  function LastBoot(events: seq<Event>, client: ClientId): (i: int)
    ensures -1 <= i < |events|
    ensures i >= 0 ==> events[i].Bootstrap? && events[i].client == client
    ensures forall k :: i < k < |events| ==> !(events[k].Bootstrap? && events[k].client == client)
  {
    if events == [] then -1
    else
      var last := events[|events| - 1];
      if last.Bootstrap? && last.client == client then |events| - 1 else LastBoot(events[..|events| - 1], client)
  }

  /** A STATUS report for the selector reached us from the client after its latest bootstrap. */
  ghost predicate SelectorReported(events: seq<Event>, client: ClientId, n: Sel) {
    exists i, p :: LastBoot(events, client) < i < |events| && events[i].Telemetered? && events[i].client == client
                   && p in events[i].params && p.command == StatusReport(n)
  }

  lemma ReportedAfterBoot(events: seq<Event>, client: ClientId, n: Sel)
    requires events != []
    ensures var init, last := events[..|events| - 1], events[|events| - 1];
            SelectorReported(events, client, n) <==>
              if last.Bootstrap? && last.client == client then false
              else SelectorReported(init, client, n)
                   || (last.Telemetered? && last.client == client && n in ReportedSelectors(last.params))
  {
    var init, last := events[..|events| - 1], events[|events| - 1];
    if !(last.Bootstrap? && last.client == client) {
      if SelectorReported(init, client, n) {
        var i, p :| LastBoot(init, client) < i < |init| && init[i].Telemetered? && init[i].client == client
                    && p in init[i].params && p.command == StatusReport(n);
        assert events[i] == init[i];
        assert SelectorReported(events, client, n);
      }
      if last.Telemetered? && last.client == client && n in ReportedSelectors(last.params) {
        var p :| p in last.params && p.command.StatusReport? && p.command.sel == n;
        assert events[|events| - 1] == last && p.command == StatusReport(n);
        assert SelectorReported(events, client, n);
      }
      if SelectorReported(events, client, n) {
        var i, p :| LastBoot(events, client) < i < |events| && events[i].Telemetered? && events[i].client == client
                    && p in events[i].params && p.command == StatusReport(n);
        if i < |init| {
          assert init[i] == events[i];
          assert SelectorReported(init, client, n);
        } else {
          assert n in ReportedSelectors(last.params);
        }
      }
    }
  }

  lemma SeenAfter(num: Numerals, store: Store, e: Event, client: ClientId)
    requires client != ""
    ensures StateOf(After(num, store, e), client).seen
         == if e.client != client then StateOf(store, client).seen
            else if e.Bootstrap? then {}
            else StateOf(store, client).seen + ReportedSelectors(e.params)
  {
    hide Meaning, UpdateReading, Missing, IsComplete;
  }

  /** What is stored as completeness always fits what is stored as seen. */
  ghost predicate StatusFits(st: ClientState) {
    st.status.Some? ==> st.status.value == Status(IsComplete(st.seen), Missing(st.seen))
  }

  lemma NothingSeen()
    ensures Missing({}) == [0, 1, 2, 3, 4] && !IsComplete({})
  {
    AllMissing(0);
    NotComplete();
  }

  lemma NotComplete()
    ensures !IsComplete({})
  {
    assert (0 as Sel) in REQUIRED;
  }

  lemma {:induction false} AllMissing(n: nat)
    requires n <= 5
    ensures MissingFrom({}, n) == [0, 1, 2, 3, 4][n..]
    decreases 5 - n
  {
    if n < 5 {
      AllMissing(n + 1);
    }
  }

  lemma StatusFitsAfter(num: Numerals, store: Store, e: Event, client: ClientId)
    requires client != "" && StatusFits(StateOf(store, client))
    ensures StatusFits(StateOf(After(num, store, e), client))
  {
    hide Meaning, UpdateReading, Missing, IsComplete, ReportedSelectors;
    NothingSeen();
  }

  /** The relay's memory of a client is exactly the set of selectors reported since its latest bootstrap. */
  lemma {:induction false} SeenIsExact(num: Numerals, events: seq<Event>, client: ClientId)
    requires client != ""
    ensures forall n: Sel :: n in StateOf(Run(num, events), client).seen <==> SelectorReported(events, client, n)
    ensures StatusFits(StateOf(Run(num, events), client))
  {
    hide SelectorReported, Meaning, UpdateReading, After, StateOf, StatusFits;
    if events == [] {
      NothingReported(client);
      FreshState(client);
    } else {
      var init, last := events[..|events| - 1], events[|events| - 1];
      SeenIsExact(num, init, client);
      SeenAfter(num, Run(num, init), last, client);
      StatusFitsAfter(num, Run(num, init), last, client);
      forall n: Sel ensures n in StateOf(Run(num, events), client).seen <==> SelectorReported(events, client, n) {
        ReportedAfterBoot(events, client, n);
      }
    }
  }

  lemma FreshState(client: ClientId)
    ensures StateOf(map[], client).seen == {} && StatusFits(StateOf(map[], client))
  {
  }

  lemma NothingReported(client: ClientId)
    ensures forall n: Sel :: !SelectorReported([], client, n)
  {
  }

  lemma CompleteMeansAll(seen: set<Sel>)
    ensures IsComplete(seen) <==> forall n: Sel :: n in seen
  {
    assert forall n: Sel :: n in REQUIRED;
  }

  /** Status completeness is exact: whenever it is present, status_complete says that every selector 0..4
      has been reported since the client's latest bootstrap, in however many messages, and
      status_missing_selectors lists in order precisely those that have not. */
  lemma StatusCompletenessIsExact(num: Numerals, events: seq<Event>, client: ClientId)
    requires client != "" && StateOf(Run(num, events), client).status.Some?
    ensures var status := StateOf(Run(num, events), client).status.value;
            && (status.complete <==> forall n: Sel :: SelectorReported(events, client, n))
            && (forall n: Sel :: n in status.missing <==> !SelectorReported(events, client, n))
            && (forall i, j :: 0 <= i < j < |status.missing| ==> status.missing[i] < status.missing[j])
  {
    hide SelectorReported, Run, StateOf, MissingFrom;
    SeenIsExact(num, events, client);
    CompleteMeansAll(StateOf(Run(num, events), client).seen);
  }

  // ---- readings over a whole run --------------------------------------------------------

  /** All parameters a client has ever sent, in order. */
  function AllParams(events: seq<Event>, client: ClientId): seq<Param> {
    if events == [] then []
    else
      var init, last := events[..|events| - 1], events[|events| - 1];
      AllParams(init, client) + if last.Telemetered? && last.client == client then last.params else []
  }

  /** The id of the last bootstrap that gave one. */
  function LastDeviceId(events: seq<Event>, client: ClientId): string {
    if events == [] then ""
    else
      var init, last := events[..|events| - 1], events[|events| - 1];
      if last.Bootstrap? && last.client == client && last.deviceId != "" then last.deviceId else LastDeviceId(init, client)
  }

  lemma {:induction false} LastConcat<V>(a: seq<Param>, b: seq<Param>, says: (Param, Sel) -> Option<V>, n: Sel)
    ensures Last(a + b, says, n) == if Last(b, says, n).Some? then Last(b, says, n) else Last(a, says, n)
  {
    if b == [] {
      assert a + b == a;
    } else {
      assert (a + b)[..|a + b| - 1] == a + b[..|b| - 1];
      LastConcat(a, b[..|b| - 1], says, n);
    }
  }

  lemma CollectConcat<V>(a: seq<Param>, b: seq<Param>, says: (Param, Sel) -> Option<V>)
    ensures Collect(a + b, says) == Collect(a, says) + Collect(b, says)
  {
    forall n: Sel ensures Last(a + b, says, n) == if Last(b, says, n).Some? then Last(b, says, n) else Last(a, says, n) {
      LastConcat(a, b, says, n);
    }
  }

  lemma {:induction false} WifiConcat(num: Numerals, a: seq<Param>, b: seq<Param>)
    ensures var w, v := WifiOf(num, a), WifiOf(num, b);
            WifiOf(num, a + b) == Wifi(if v.ssid.Some? then v.ssid else w.ssid,
                                       if v.rssiDbm.Some? then v.rssiDbm else w.rssiDbm,
                                       if v.rssiRaw.Some? then v.rssiRaw else w.rssiRaw)
  {
    if b == [] {
      assert a + b == a;
    } else {
      assert (a + b)[..|a + b| - 1] == a + b[..|b| - 1];
      WifiConcat(num, a, b[..|b| - 1]);
    }
  }

  /** Updating with a later list is reading both lists as one. */
  lemma MeaningConcat(num: Numerals, a: seq<Param>, b: seq<Param>)
    ensures UpdateReading(Meaning(num, a, RELAY), Meaning(num, b, RELAY)) == Meaning(num, a + b, RELAY)
  {
    hide PowerSays, MeterSays, EnergySays, AlarmSays, CutoffSays, StandbySays, Collect, WifiOf;
    CollectConcat(a, b, PowerSays);
    CollectConcat(a, b, (p, n) => MeterSays(num, p, n));
    CollectConcat(a, b, (p, n) => EnergySays(num, p, n));
    CollectConcat(a, b, (p, n) => AlarmSays(num, RELAY.alarm, p, n));
    CollectConcat(a, b, (p, n) => CutoffSays(RELAY.cutoff, p, n));
    CollectConcat(a, b, (p, n) => StandbySays(num, RELAY.idle, p, n));
    WifiConcat(num, a, b);
  }

  lemma ReadingAfter(num: Numerals, store: Store, e: Event, client: ClientId)
    requires client != ""
    ensures var before, after := StateOf(store, client), StateOf(After(num, store, e), client);
            && after.reading == (if e.client == client && e.Telemetered? && e.params != []
                                 then UpdateReading(before.reading, Meaning(num, e.params, RELAY)) else before.reading)
            && after.deviceId
               == (if e.client == client && e.Bootstrap? && e.deviceId != "" then e.deviceId else before.deviceId)
  {
    hide Meaning, UpdateReading, Missing, IsComplete, ReportedSelectors;
  }

  /** What the relay holds of a client is what all the parameters it ever sent say, the last one for each reading
      counting, across messages and bootstraps alike; and its id is the last one a bootstrap gave. */
  lemma {:induction false} ReadingIsAllParameters(num: Numerals, events: seq<Event>, client: ClientId)
    requires client != ""
    ensures StateOf(Run(num, events), client).reading == Meaning(num, AllParams(events, client), RELAY)
    ensures StateOf(Run(num, events), client).deviceId == LastDeviceId(events, client)
  {
    hide Meaning, UpdateReading, After, StateOf;
    if events == [] {
      NothingRead(num, client);
    } else {
      var init, last := events[..|events| - 1], events[|events| - 1];
      ReadingIsAllParameters(num, init, client);
      ReadingAfter(num, Run(num, init), last, client);
      if last.Telemetered? && last.client == client {
        MeaningConcat(num, AllParams(init, client), last.params);
        assert last.params == [] ==> AllParams(init, client) + last.params == AllParams(init, client);
      } else {
        assert AllParams(init, client) + [] == AllParams(init, client);
      }
    }
  }

  lemma NothingRead(num: Numerals, client: ClientId)
    ensures StateOf(map[], client).reading == Meaning(num, [], RELAY) && StateOf(map[], client).deviceId == ""
  {
    EmptyMeaning(num, RELAY);
  }
}

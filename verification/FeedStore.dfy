/** The dashboard feed: the store of device entries in which a temporary "ip:<addr>" entry becomes part of
    the entry of the client that turns up at that address (relay/rules/10-dashboard-feed.py). */
module FeedStore {
  import opened Options
  import opened DeviceEntry

  type Store = map<string, Entry>

  predicate IsPseudo(key: string) {
    "ip:" <= key
  }

  function IpKey(ip: string): string {
    "ip:" + ip
  }

  /** The address the relay could not make out. */
  const UNKNOWN_IP := "?"

  // ---- what the hooks record -----------------------------------------------------

  datatype Update =
    | MefPost(names: map<Name, string>, at: real)
    | SessionStart(at: real)
    | Message(topic: string, delta: Option<Delta>, at: real, mergedAt: real)
    | Injected(command: string)

  const IDENT_NAMES: set<Name> := {Mac, Serial, Model}

  function Identify(names: map<Name, string>, ident: map<Name, string>): map<Name, string> {
    map name | name in names.Keys + ident.Keys && (name in names || (name in IDENT_NAMES && Has(ident, name))) ::
      if name in IDENT_NAMES && Has(ident, name) then ident[name] else names[name]
  }

  function Apply(e: Entry, u: Update): Entry {
    match u
    case MefPost(ident, at) =>
      e.(mefSeen := true, names := Identify(e.names, ident), lastSeen := Some(at), firstSeen := SetDefault(e.firstSeen, at))
    case SessionStart(at) =>
      e.(reconnects := if e.mqttConnected && e.sessionEpoch > 0 then e.reconnects + 1 else e.reconnects,
         sessionEpoch := e.sessionEpoch + 1,
         sessionStart := Some(at),
         mqttConnected := true,
         lastSeen := Some(at),
         firstSeen := SetDefault(e.firstSeen, at))
    case Message(topic, delta, at, mergedAt) =>
      var heard := e.(mqttConnected := true, names := e.names[LastTopic := topic], lastMsg := Some(at), lastSeen := Some(at),
                      firstSeen := SetDefault(e.firstSeen, at));
      if delta.Some? then MergeDelta(heard, delta.value, mergedAt) else heard
    case Injected(command) => e.(lastInject := Some(command))
  }

  // ---- recording -----------------------------------------------------------------

  predicate HasIp(e: Entry, ip: string) {
    Ip in e.names && e.names[Ip] == ip
  }

  /** A client entry that may be fed for an address; which of several is the dictionary's choice. */
  predicate Serves(s: Store, key: string, ip: string) {
    key in s && !IsPseudo(key) && HasIp(s[key], ip) && ip != UNKNOWN_IP
  }

  ghost predicate ValidPick(s: Store, ip: string, pick: Option<string>) {
    if pick.Some? then Serves(s, pick.value, ip) else forall key :: key in s ==> !Serves(s, key, ip)
  }

  /** The key an observation goes to, and the store with an entry there. */
  function Placed(s: Store, client: string, ip: string, pick: Option<string>): (Store, string) {
    var ipKey := IpKey(ip);
    if client != "" then
      var dst := if client in s then s[client] else NEW_ENTRY;
      if ipKey in s && ipKey != client then ((s - {ipKey})[client := Merge(dst, s[ipKey])], client)
      else (s[client := dst], client)
    else if pick.Some? && pick.value in s then (s, pick.value)
    else (s[ipKey := if ipKey in s then s[ipKey] else NEW_ENTRY], ipKey)
  }

  function Stamp(e: Entry, client: string, ip: string): Entry {
    var names := if ip != UNKNOWN_IP then e.names[Ip := ip] else e.names;
    e.(names := if client != "" then names[ClientId := client] else names)
  }

  /** The addresses of the real entries. */
  function RealIps(s: Store): set<string> {
    set key | key in s && !IsPseudo(key) && Has(s[key].names, Ip) :: s[key].names[Ip]
  }

  function Prune(s: Store): Store {
    map key | key in s && !(IsPseudo(key) && Ip in s[key].names && s[key].names[Ip] in RealIps(s)) :: s[key]
  }

  /** The store before pruning. */
  function Fed(s: Store, client: string, ip: string, u: Update, pick: Option<string>): Store {
    var (placed, key) := Placed(s, client, ip, pick);
    placed[key := Apply(Stamp(placed[key], client, ip), u)]
  }

  /** What _load makes of the file: nothing at all if it cannot be read or parsed. */
  function Loaded(s: Store, loaded: bool): Store {
    if loaded then s else map[]
  }

  /** _record; a failed save leaves the file as it was. An unknown client_id is "". */
  function Record(s: Store, client: string, ip: string, u: Update, pick: Option<string>, loaded: bool, saved: bool): Store {
    if saved then Prune(Fed(Loaded(s, loaded), client, ip, u, pick)) else s
  }

  class DeviceFeed {
    var devices: Store

    constructor ()
      ensures devices == map[]
    {
      devices := map[];
    }

    /** The entry to feed, with the temporary one for this address merged into a client's. */
    static method GetEntry(devices: Store, client: string, ip: string)
      returns (r: Store, key: string, ghost pick: Option<string>)
      ensures ValidPick(devices, ip, pick)
      ensures (r, key) == Placed(devices, client, ip, if client == "" then pick else None)
      ensures key in r
    {
      hide Merge;
      r := devices;
      var ipKey := IpKey(ip);
      pick := if exists k :: Serves(devices, k, ip) then
                var k :| Serves(devices, k, ip); Some(k)
              else None;
      if client != "" {
        if client !in r {
          r := r[client := NEW_ENTRY];
        }
        if ipKey in r && ipKey != client {
          var merged := MergeEntry(r[client], r[ipKey]);
          r := (r - {ipKey})[client := merged];
          assert r == (devices - {ipKey})[client := merged];
        } else {
          assert r == devices[client := if client in devices then devices[client] else NEW_ENTRY];
        }
        return r, client, pick;
      }
      var rest := devices.Keys;
      while rest != {}
        invariant rest <= devices.Keys
        invariant forall k :: k in devices && k !in rest ==> !Serves(devices, k, ip)
        decreases |rest|
      {
        var k :| k in rest;
        if !IsPseudo(k) && HasIp(devices[k], ip) && ip != UNKNOWN_IP {
          return r, k, Some(k);
        }
        rest := rest - {k};
      }
      if ipKey !in r {
        r := r[ipKey := NEW_ENTRY];
      }
      key := ipKey;
      assert r == devices[ipKey := if ipKey in devices then devices[ipKey] else NEW_ENTRY];
    }

    static method PruneStore(devices: Store) returns (r: Store)
      ensures r == Prune(devices)
    {
      var realIps := RealIps(devices);
      r := devices;
      var rest := devices.Keys;
      while rest != {}
        invariant rest <= devices.Keys
        invariant r == map key | key in devices
                         && !(key !in rest && IsPseudo(key) && Ip in devices[key].names && devices[key].names[Ip] in realIps)
                         :: devices[key]
        decreases |rest|
      {
        var k :| k in rest;
        if IsPseudo(k) && Ip in devices[k].names && devices[k].names[Ip] in realIps {
          r := r - {k};
        }
        rest := rest - {k};
      }
    }

    /** One observation; the store is read from the file and written back each time. */
    method RecordUpdate(client: string, ip: string, u: Update, loaded: bool, saved: bool) returns (ghost pick: Option<string>)
      modifies this
      ensures ValidPick(Loaded(old(devices), loaded), ip, pick)
      ensures devices == Record(old(devices), client, ip, u, if client == "" then pick else None, loaded, saved)
    {
      var current := map[];
      if loaded {
        current := devices;
      }
      var placed, key, p := GetEntry(current, client, ip);
      pick := p;
      var entry := placed[key];
      if ip != UNKNOWN_IP {
        entry := entry.(names := entry.names[Ip := ip]);
      }
      if client != "" {
        entry := entry.(names := entry.names[ClientId := client]);
      }
      placed := placed[key := Apply(entry, u)];
      placed := PruneStore(placed);
      if saved {
        devices := placed;
      }
    }
  }

  // ---- one entry per device -----------------------------------------------------------

  /** A temporary entry carries the address in its key, and nothing of a client. */
  predicate PseudoEntry(key: string, e: Entry)
    requires |key| >= 3
  {
    && key == IpKey(key[3..])
    && ClientId !in e.names
    && if key[3..] == UNKNOWN_IP then Ip !in e.names else HasIp(e, key[3..])
  }

  ghost predicate Deduplicated(s: Store) {
    && (forall key :: key in s && IsPseudo(key) ==> |key| >= 3 && PseudoEntry(key, s[key]))
    && (forall key :: key in s && !IsPseudo(key) ==> ClientId in s[key].names && s[key].names[ClientId] == key)
    && (forall p, c :: p in s && IsPseudo(p) && c in s && !IsPseudo(c) && Ip in s[p].names ==> !HasIp(s[c], s[p].names[Ip]))
  }

  lemma OverlaysKeepPlace(names: map<Name, string>, more: map<Name, string>, name: Name)
    requires name == Ip || name == ClientId
    ensures NameOf(Overlay(names, more), name) == NameOf(Identify(names, more), name) == NameOf(names, name)
  {
  }

  /** No hook touches the address or the client_id of the entry it updates. */
  lemma ApplyKeepsPlace(e: Entry, u: Update)
    ensures NameOf(Apply(e, u).names, Ip) == NameOf(e.names, Ip)
    ensures NameOf(Apply(e, u).names, ClientId) == NameOf(e.names, ClientId)
  {
    hide Overlay, Identify;
    match u
    case MefPost(ident, _) =>
      OverlaysKeepPlace(e.names, ident, Ip);
      OverlaysKeepPlace(e.names, ident, ClientId);
    case Message(topic, delta, _, _) =>
      if delta.Some? {
        OverlaysKeepPlace(e.names[LastTopic := topic], delta.value.names, Ip);
        OverlaysKeepPlace(e.names[LastTopic := topic], delta.value.names, ClientId);
      }
    case _ =>
  }

  lemma RemoveDeduplicated(s: Store, key: string)
    requires Deduplicated(s)
    ensures Deduplicated(s - {key})
  {
    var r := s - {key};
    assert forall k :: k in r ==> k in s && r[k] == s[k];
  }

  lemma PutClient(s: Store, client: string, e: Entry)
    requires Deduplicated(s) && !IsPseudo(client) && ClientId in e.names && e.names[ClientId] == client
    requires forall p :: p in s && IsPseudo(p) && Ip in s[p].names ==> !HasIp(e, s[p].names[Ip])
    ensures Deduplicated(s[client := e])
  {
    var r := s[client := e];
    assert forall k :: k in r && k != client ==> k in s && r[k] == s[k];
  }

  lemma PutPseudo(s: Store, key: string, e: Entry)
    requires Deduplicated(s) && IsPseudo(key) && |key| >= 3 && PseudoEntry(key, e)
    requires forall c :: c in s && !IsPseudo(c) && Ip in e.names ==> !HasIp(s[c], e.names[Ip])
    ensures Deduplicated(s[key := e])
  {
    var r := s[key := e];
    assert forall k :: k in r && k != key ==> k in s && r[k] == s[k];
  }

  /** The entry a client is given before it is updated. */
  function Adopted(s: Store, client: string, ip: string): Entry {
    var dst := if client in s then s[client] else NEW_ENTRY;
    if IpKey(ip) in s then Merge(dst, s[IpKey(ip)]) else dst
  }

  lemma AdoptedPlace(s: Store, client: string, ip: string)
    requires Deduplicated(s)
    ensures NameOf(Adopted(s, client, ip).names, Ip) == (if client in s then NameOf(s[client].names, Ip) else None)
         || ip != UNKNOWN_IP
  {
    hide Merge, Deduplicated;
    var ipKey := IpKey(ip);
    assert ipKey[3..] == ip;
    if ipKey in s {
      var dst := if client in s then s[client] else NEW_ENTRY;
      PlacesAsBefore(s, ipKey);
      MergeKeepsEverything(dst, s[ipKey]);
      assert NameOf(Merge(dst, s[ipKey]).names, Ip) == Prefer(NameOf(dst.names, Ip), NameOf(s[ipKey].names, Ip));
    }
  }

  lemma FedIsAdopted(s: Store, client: string, ip: string, u: Update)
    requires client != "" && !IsPseudo(client)
    ensures Fed(s, client, ip, u, None) == (s - {IpKey(ip)})[client := Apply(Stamp(Adopted(s, client, ip), client, ip), u)]
  {
    hide Apply, Merge, Stamp;
  }

  lemma FedClient(s: Store, client: string, ip: string, u: Update)
    requires Deduplicated(s) && client != "" && !IsPseudo(client)
    ensures Deduplicated(Fed(s, client, ip, u, None))
  {
    var stamped := Stamp(Adopted(s, client, ip), client, ip);
    var e := Apply(stamped, u);
    AdoptedPlace(s, client, ip);
    ApplyKeepsPlace(stamped, u);
    assert NameOf(stamped.names, ClientId) == Some(client);
    assert NameOf(stamped.names, Ip) == if ip != UNKNOWN_IP then Some(ip) else NameOf(Adopted(s, client, ip).names, Ip);
    hide Apply, Deduplicated, Stamp, Adopted, Fed;
    ClientAvoidsPseudos(s, client, ip, e);
    RemoveDeduplicated(s, IpKey(ip));
    PutClient(s - {IpKey(ip)}, client, e);
    FedIsAdopted(s, client, ip, u);
  }

  /** The client's address afterwards is the one it was seen at, else the one it had. */
  lemma ClientAvoidsPseudos(s: Store, client: string, ip: string, e: Entry)
    requires Deduplicated(s) && !IsPseudo(client)
    requires if ip != UNKNOWN_IP then HasIp(e, ip)
             else NameOf(e.names, Ip) == if client in s then NameOf(s[client].names, Ip) else None
    ensures forall p :: p in s - {IpKey(ip)} && IsPseudo(p) && Ip in s[p].names ==> !HasIp(e, s[p].names[Ip])
  {
    forall p | p in s - {IpKey(ip)} && IsPseudo(p) && Ip in s[p].names ensures !HasIp(e, s[p].names[Ip]) {
      assert PseudoEntry(p, s[p]);
    }
  }

  lemma FedUnknown(s: Store, ip: string, u: Update, pick: Option<string>)
    requires Deduplicated(s) && ValidPick(s, ip, pick)
    ensures Deduplicated(Fed(s, "", ip, u, pick))
  {
    hide Apply, Deduplicated;
    var ipKey := IpKey(ip);
    assert ipKey[3..] == ip;
    var key := if pick.Some? then pick.value else ipKey;
    var placed := if key in s then s[key] else NEW_ENTRY;
    var e := Apply(Stamp(placed, "", ip), u);
    ApplyKeepsPlace(Stamp(placed, "", ip), u);
    PlacesAsBefore(s, key);
    assert Fed(s, "", ip, u, pick) == s[key := e];
    if pick.Some? {
      PutClient(s, key, e);
    } else {
      PutPseudo(s, key, e);
    }
  }

  lemma PlacesAsBefore(s: Store, key: string)
    requires Deduplicated(s)
    ensures key in s && IsPseudo(key) ==> |key| >= 3 && PseudoEntry(key, s[key])
    ensures key in s && !IsPseudo(key) ==>
              && ClientId in s[key].names && s[key].names[ClientId] == key
              && forall p :: p in s && IsPseudo(p) && Ip in s[p].names ==> !HasIp(s[key], s[p].names[Ip])
  {
  }

  lemma FedDeduplicated(s: Store, client: string, ip: string, u: Update, pick: Option<string>)
    requires Deduplicated(s) && !IsPseudo(client)
    requires client == "" ==> ValidPick(s, ip, pick)
    ensures Deduplicated(Fed(s, client, ip, u, pick))
  {
    hide Apply, Merge, Deduplicated;
    if client == "" {
      FedUnknown(s, ip, u, pick);
    } else {
      FedClient(s, client, ip, u);
      assert Fed(s, client, ip, u, pick) == Fed(s, client, ip, u, None);
    }
  }

  /** _prune never has anything to do: an observation cannot leave an address with two entries. */
  lemma PruneRemovesNothing(s: Store, client: string, ip: string, u: Update, pick: Option<string>)
    requires Deduplicated(s) && !IsPseudo(client)
    requires client == "" ==> ValidPick(s, ip, pick)
    ensures Prune(Fed(s, client, ip, u, pick)) == Fed(s, client, ip, u, pick)
  {
    hide Fed;
    FedDeduplicated(s, client, ip, u, pick);
  }

  // ---- runs --------------------------------------------------------------------------------

  datatype Observation = Observation(client: string, ip: string, update: Update, pick: Option<string>,
                                     loaded: bool, saved: bool)

  function Observe(s: Store, o: Observation): Store {
    Record(s, o.client, o.ip, o.update, o.pick, o.loaded, o.saved)
  }

  ghost predicate IsRun(stores: seq<Store>, observations: seq<Observation>) {
    && |stores| == |observations| + 1
    && forall i :: 0 <= i < |observations| ==>
         && (observations[i].client == "" ==>
               ValidPick(Loaded(stores[i], observations[i].loaded), observations[i].ip, observations[i].pick))
         && stores[i + 1] == Observe(stores[i], observations[i])
  }

  /** No client calls itself "ip:...". */
  ghost predicate RealClients(observations: seq<Observation>) {
    forall i :: 0 <= i < |observations| ==> !IsPseudo(observations[i].client)
  }

  /** The file could not be read, but could be written: everything in it is lost. */
  predicate Wipes(o: Observation) {
    o.saved && !o.loaded
  }

  lemma NothingIsDeduplicated()
    ensures Deduplicated(map[])
  {
  }

  /** On every store reached from the empty one, no temporary entry shares its address with a client's,
      each client key is its entry's client_id, and pruning removed nothing on the way. */
  lemma {:induction false} AlwaysDeduplicated(stores: seq<Store>, observations: seq<Observation>, i: nat)
    requires IsRun(stores, observations) && RealClients(observations) && stores[0] == map[] && i < |stores|
    ensures Deduplicated(stores[i])
    ensures i > 0 && observations[i - 1].saved ==>
              var o := observations[i - 1];
              stores[i] == Fed(Loaded(stores[i - 1], o.loaded), o.client, o.ip, o.update, o.pick)
  {
    hide Fed, Prune, Deduplicated;
    NothingIsDeduplicated();
    if i > 0 {
      AlwaysDeduplicated(stores, observations, i - 1);
      var o := observations[i - 1];
      FedDeduplicated(Loaded(stores[i - 1], o.loaded), o.client, o.ip, o.update, o.pick);
      PruneRemovesNothing(Loaded(stores[i - 1], o.loaded), o.client, o.ip, o.update, o.pick);
    }
  }

  // ---- what is recorded at an address waits for its client ---------------------------------------

  /** What both a bootstrap and a message may carry of a device's identity. */
  predicate IsIdentity(name: Name) {
    name == Mac || name == Serial || name == Model
  }

  /** The mac, serial or model an update carries. */
  function Said(u: Update, name: Name): Option<string> {
    match u
    case MefPost(ident, _) => if Has(ident, name) then Some(ident[name]) else None
    case Message(_, delta, _, _) =>
      if delta.Some? && Has(delta.value.names, name) then Some(delta.value.names[name]) else None
    case _ => None
  }

  /** The last one recorded at an address, else the one to begin with. */
  function LastSaid(observations: seq<Observation>, ip: string, name: Name, start: string): string {
    if observations == [] then start
    else
      var last := observations[|observations| - 1];
      if last.ip == ip && last.saved && Said(last.update, name).Some? then Said(last.update, name).value
      else LastSaid(observations[..|observations| - 1], ip, name, start)
  }

  lemma ApplyIdentifies(e: Entry, u: Update, name: Name)
    requires IsIdentity(name)
    ensures NameOf(Apply(e, u).names, name) == (if Said(u, name).Some? then Said(u, name) else NameOf(e.names, name))
  {
    hide Overlay, Identify, Has, SetDefault, MergeDelta;
    match u
    case MefPost(ident, _) => IdentOverlaid(e.names, ident, name);
    case Message(topic, delta, at, mergedAt) =>
      if delta.Some? {
        MergeIdentifies(e.(mqttConnected := true, names := e.names[LastTopic := topic], lastMsg := Some(at),
                           lastSeen := Some(at), firstSeen := SetDefault(e.firstSeen, at)), delta.value, mergedAt, name);
      }
    case _ =>
  }

  lemma MergeIdentifies(e: Entry, d: Delta, now: real, name: Name)
    requires IsIdentity(name)
    ensures NameOf(MergeDelta(e, d, now).names, name)
         == if Has(d.names, name) then Some(d.names[name]) else NameOf(e.names, name)
  {
    hide Overlay, Has;
    IdentOverlaid(e.names, d.names, name);
  }

  lemma IdentOverlaid(names: map<Name, string>, more: map<Name, string>, name: Name)
    requires IsIdentity(name)
    ensures NameOf(Overlay(names, more), name) == NameOf(Identify(names, more), name)
         == if Has(more, name) then Some(more[name]) else NameOf(names, name)
  {
  }

  /** A temporary entry is not touched by what is seen from other addresses. */
  lemma PseudoEntryUndisturbed(s: Store, o: Observation, ip: string)
    requires Deduplicated(s) && !IsPseudo(o.client) && (o.client == "" ==> ValidPick(s, o.ip, o.pick))
    requires o.ip != ip && IpKey(ip) in s && !Wipes(o)
    ensures IpKey(ip) in Observe(s, o) && Observe(s, o)[IpKey(ip)] == s[IpKey(ip)]
  {
    hide Apply;
    assert IpKey(ip)[3..] == ip && IpKey(o.ip)[3..] == o.ip;
    PruneRemovesNothing(s, o.client, o.ip, o.update, o.pick);
  }

  /** What is seen from its own address without a client_id goes into it. */
  lemma PseudoEntryFed(s: Store, o: Observation)
    requires Deduplicated(s) && o.client == "" && ValidPick(s, o.ip, o.pick)
    requires IpKey(o.ip) in s && o.loaded && o.saved
    ensures IpKey(o.ip) in Observe(s, o) && Observe(s, o)[IpKey(o.ip)] == Apply(Stamp(s[IpKey(o.ip)], "", o.ip), o.update)
  {
    hide Apply;
    assert IpKey(o.ip)[3..] == o.ip;
    PlacesAsBefore(s, IpKey(o.ip));
    assert o.pick == None;
    PruneRemovesNothing(s, "", o.ip, o.update, o.pick);
  }

  lemma PseudoEntryStep(s: Store, o: Observation, ip: string, name: Name)
    requires Deduplicated(s) && !IsPseudo(o.client) && (o.client == "" ==> ValidPick(Loaded(s, o.loaded), o.ip, o.pick))
    requires IpKey(ip) in s && IsIdentity(name) && !Wipes(o) && (o.ip == ip ==> o.client == "")
    ensures IpKey(ip) in Observe(s, o)
    ensures NameOf(Observe(s, o)[IpKey(ip)].names, name)
         == if o.ip == ip && o.saved && Said(o.update, name).Some? then Said(o.update, name)
            else NameOf(s[IpKey(ip)].names, name)
  {
    hide Apply, Deduplicated, Fed;
    if o.saved {
      if o.ip == ip {
        PseudoEntryFed(s, o);
        ApplyIdentifies(Stamp(s[IpKey(ip)], "", ip), o.update, name);
      } else {
        PseudoEntryUndisturbed(s, o, ip);
      }
    }
  }

  lemma {:induction false} PseudoEntryWaits(stores: seq<Store>, observations: seq<Observation>, ip: string,
        i: nat, j: nat, name: Name)
    requires IsRun(stores, observations) && RealClients(observations) && stores[0] == map[] && i <= j < |stores|
    requires IpKey(ip) in stores[i] && IsIdentity(name) && Has(stores[i][IpKey(ip)].names, name)
    requires forall k :: i <= k < j ==> !Wipes(observations[k]) && (observations[k].ip == ip ==> observations[k].client == "")
    ensures IpKey(ip) in stores[j] && Has(stores[j][IpKey(ip)].names, name)
    ensures stores[j][IpKey(ip)].names[name] == LastSaid(observations[i..j], ip, name, stores[i][IpKey(ip)].names[name])
  {
    hide Observe, Deduplicated, LastSaid, ValidPick, Said;
    if i < j {
      PseudoEntryWaits(stores, observations, ip, i, j - 1, name);
      AlwaysDeduplicated(stores, observations, j - 1);
      PseudoEntryStep(stores[j - 1], observations[j - 1], ip, name);
      LastSaidStep(observations, ip, name, i, j, stores[i][IpKey(ip)].names[name]);
      SaidIsThere(observations[j - 1].update, name);
    } else {
      NothingSaidSince(observations, ip, name, i, stores[i][IpKey(ip)].names[name]);
    }
  }

  lemma LastSaidStep(observations: seq<Observation>, ip: string, name: Name, i: nat, j: nat, start: string)
    requires i < j <= |observations|
    ensures var o := observations[j - 1];
            LastSaid(observations[i..j], ip, name, start)
            == if o.ip == ip && o.saved && Said(o.update, name).Some? then Said(o.update, name).value
               else LastSaid(observations[i..j - 1], ip, name, start)
  {
    assert observations[i..j][..j - 1 - i] == observations[i..j - 1];
  }

  lemma NothingSaidSince(observations: seq<Observation>, ip: string, name: Name, i: nat, start: string)
    requires i <= |observations|
    ensures LastSaid(observations[i..i], ip, name, start) == start
  {
  }

  lemma SaidIsThere(u: Update, name: Name)
    ensures Said(u, name).Some? ==> Said(u, name).value != ""
  {
  }

  /** De-duplication loses nothing: once a mac, serial or model is recorded for an address, the last one
      recorded there reaches the first client that is observed at it, whatever is observed in between there
      without a client_id or elsewhere -- unless that client says or already had one of its own. */
  lemma IdentityReachesTheClient(stores: seq<Store>, observations: seq<Observation>, ip: string, i: nat,
        j: nat, name: Name)
    requires IsRun(stores, observations) && RealClients(observations) && stores[0] == map[] && i <= j < |observations|
    requires IpKey(ip) in stores[i] && IsIdentity(name) && Has(stores[i][IpKey(ip)].names, name)
    requires forall k :: i <= k < j && observations[k].ip == ip ==> observations[k].client == ""
    requires forall k :: i <= k <= j ==> !Wipes(observations[k])
    requires observations[j].ip == ip && observations[j].client != "" && observations[j].saved
    ensures var client, said := observations[j].client, Said(observations[j].update, name);
            && IpKey(ip) !in stores[j + 1] && client in stores[j + 1]
            && Has(stores[j + 1][client].names, name)
            && stores[j + 1][client].names[name]
               == if said.Some? then said.value
                  else if client in stores[j] && Has(stores[j][client].names, name) then stores[j][client].names[name]
                  else LastSaid(observations[i..j], ip, name, stores[i][IpKey(ip)].names[name])
  {
    hide Merge, Fed, Deduplicated, Apply;
    var o := observations[j];
    PseudoEntryWaits(stores, observations, ip, i, j, name);
    AlwaysDeduplicated(stores, observations, j + 1);
    ClientTakesOver(stores[j], o.client, ip, o.update, o.pick, name);
    MergeKeepsEverything(if o.client in stores[j] then stores[j][o.client] else NEW_ENTRY, stores[j][IpKey(ip)]);
  }

  /** A client observed at an address makes the temporary entry there part of its own. */
  lemma ClientTakesOver(s: Store, client: string, ip: string, u: Update, pick: Option<string>, name: Name)
    requires client != "" && !IsPseudo(client) && IpKey(ip) in s && IsIdentity(name)
    ensures var fed, dst := Fed(s, client, ip, u, pick), if client in s then s[client] else NEW_ENTRY;
            && IpKey(ip) !in fed && client in fed
            && NameOf(fed[client].names, name)
               == if Said(u, name).Some? then Said(u, name) else NameOf(Merge(dst, s[IpKey(ip)]).names, name)
  {
    hide Merge, Apply;
    var dst := if client in s then s[client] else NEW_ENTRY;
    ApplyIdentifies(Stamp(Merge(dst, s[IpKey(ip)]), client, ip), u, name);
  }

  // ---- exactly which keys stay ------------------------------------------------------------------

  lemma RecordKeys(s: Store, o: Observation, key: string)
    requires o.client == "" ==> ValidPick(Loaded(s, o.loaded), o.ip, o.pick)
    requires key != "" && !IsPseudo(key)
    ensures key in Observe(s, o) <==> (o.saved && key == o.client) || (key in s && !Wipes(o))
  {
    hide Apply, Merge;
    assert IsPseudo(IpKey(o.ip));
  }

  /** An observation of this client that reached the file. */
  predicate Records(o: Observation, client: string) {
    o.client == client && o.saved
  }

  ghost predicate RecordedSinceWiped(observations: seq<Observation>, client: string) {
    exists k :: 0 <= k < |observations| && Records(observations[k], client)
                && forall m :: k < m < |observations| ==> !Wipes(observations[m])
  }

  lemma {:induction false} NoEmptyKey(stores: seq<Store>, observations: seq<Observation>, i: nat)
    requires IsRun(stores, observations) && stores[0] == map[] && i < |stores|
    ensures "" !in stores[i]
  {
    hide Apply, Merge;
    if i > 0 {
      NoEmptyKey(stores, observations, i - 1);
      assert IpKey(observations[i - 1].ip) != "";
    }
  }

  /** A client is in the store exactly when it was recorded, and since then no unreadable file was written
      over: a client_id of a physical device leaves the file for no other reason. */
  lemma {:induction false} ClientPresentIff(stores: seq<Store>, observations: seq<Observation>, j: nat, client: string)
    requires IsRun(stores, observations) && stores[0] == map[] && j < |stores|
    requires !IsPseudo(client)
    ensures client in stores[j] <==> client != "" && RecordedSinceWiped(observations[..j], client)
  {
    hide Observe, Wipes;
    if client == "" {
      NoEmptyKey(stores, observations, j);
    } else if j > 0 {
      ClientPresentIff(stores, observations, j - 1, client);
      RecordKeys(stores[j - 1], observations[j - 1], client);
      assert observations[..j][..j - 1] == observations[..j - 1];
      RecordedStep(observations[..j], client);
    }
  }

  lemma RecordedStep(observations: seq<Observation>, client: string)
    requires observations != []
    ensures var init, last := observations[..|observations| - 1], observations[|observations| - 1];
            RecordedSinceWiped(observations, client)
            <==> Records(last, client) || (RecordedSinceWiped(init, client) && !Wipes(last))
  {
    hide Wipes, Records;
    var n := |observations| - 1;
    var init, last := observations[..n], observations[n];
    if RecordedSinceWiped(init, client) && !Wipes(last) {
      var k :| 0 <= k < n && Records(init[k], client) && forall m :: k < m < n ==> !Wipes(init[m]);
      assert Records(observations[k], client);
      assert forall m :: k < m < n ==> observations[m] == init[m];
    }
    if RecordedSinceWiped(observations, client) && !Records(last, client) {
      var k :| 0 <= k <= n && Records(observations[k], client) && forall m :: k < m <= n ==> !Wipes(observations[m]);
      assert Records(init[k], client);
      assert forall m :: k < m < n ==> observations[m] == init[m];
    }
  }

  /** Any observations from a store on, as long as no unreadable file is written over. */
  ghost predicate Continues(s: Store, stores: seq<Store>, observations: seq<Observation>) {
    && IsRun(stores, observations) && stores[0] == s
    && forall i :: 0 <= i < |observations| ==> !Wipes(observations[i])
  }

  ghost predicate Stays(s: Store, key: string) {
    forall stores, observations :: Continues(s, stores, observations) ==> key in stores[|observations|]
  }

  lemma {:induction false} RealKeyStays(s: Store, stores: seq<Store>, observations: seq<Observation>, i: nat, key: string)
    requires Continues(s, stores, observations) && i < |stores|
    requires key in s && !IsPseudo(key)
    ensures key in stores[i]
  {
    hide Observe;
    if i > 0 {
      RealKeyStays(s, stores, observations, i - 1, key);
      RealKeyKept(stores[i - 1], observations[i - 1], key);
    }
  }

  lemma RealKeyKept(s: Store, o: Observation, key: string)
    requires key in s && !IsPseudo(key) && !Wipes(o)
    ensures key in Observe(s, o)
  {
    hide Apply, Merge;
    assert IsPseudo(IpKey(o.ip));
  }

  /** A key of the store is there for good, whoever is observed wherever next, exactly when it does not begin
      with "ip:". A client that calls itself so is taken for a temporary entry. */
  lemma KeyStaysIff(s: Store, key: string)
    requires key in s
    ensures Stays(s, key) <==> !IsPseudo(key)
  {
    hide Observe;
    if IsPseudo(key) {
      var ip := key[3..];
      assert key == IpKey(ip);
      var o := Observation("c", ip, SessionStart(1.0), None, true, true);
      TakenOver(s, o);
      var stores, observations := [s, Observe(s, o)], [o];
      assert Continues(s, stores, observations);
      assert key !in stores[|observations|];
    } else {
      forall stores, observations | Continues(s, stores, observations) ensures key in stores[|observations|] {
        RealKeyStays(s, stores, observations, |observations|, key);
      }
    }
  }

  lemma TakenOver(s: Store, o: Observation)
    requires IpKey(o.ip) in s && o.client != "" && !IsPseudo(o.client) && o.loaded && o.saved
    ensures IpKey(o.ip) !in Observe(s, o)
  {
    hide Apply, Merge;
  }

  // ---- why a client may not call itself "ip:..." -------------------------------------------

  /** And what was recorded for such a client is lost without a trace: once another client is observed at its
      address, the store is as if it had never been there. */
  lemma PseudoNamedClientIsLost(s: Store, imposter: string, o: Observation)
    requires imposter in s && IsPseudo(imposter) && imposter != IpKey(o.ip)
    requires HasIp(s[imposter], o.ip) && o.ip != "" && o.ip != UNKNOWN_IP
    requires o.client != "" && !IsPseudo(o.client) && o.loaded && o.saved
    ensures imposter !in Observe(s, o) && Observe(s, o) == Observe(s - {imposter}, o)
  {
    hide Apply, Merge;
    var r := s - {imposter};
    var fed, without := Fed(s, o.client, o.ip, o.update, o.pick), Fed(r, o.client, o.ip, o.update, o.pick);
    var placed := Placed(s, o.client, o.ip, o.pick).0[o.client];
    assert placed == Placed(r, o.client, o.ip, o.pick).0[o.client];
    ApplyKeepsPlace(Stamp(placed, o.client, o.ip), o.update);
    assert fed - {imposter} == without && fed[imposter] == s[imposter];
    assert HasIp(fed[o.client], o.ip);
    assert o.ip in RealIps(fed);
    RealIpsIgnorePseudos(fed, imposter);
  }

  lemma RealIpsIgnorePseudos(s: Store, key: string)
    requires IsPseudo(key)
    ensures RealIps(s - {key}) == RealIps(s)
  {
    var r := s - {key};
    forall ip | ip in RealIps(s) ensures ip in RealIps(r) {
      var k :| k in s && !IsPseudo(k) && Has(s[k].names, Ip) && s[k].names[Ip] == ip;
      assert k in r && r[k] == s[k];
    }
  }

  // ---- first_seen --------------------------------------------------------------------------

  /** The entry a hook is given: found or made, with its address and client_id written in. */
  function Given(s: Store, o: Observation): Entry {
    var (placed, key) := Placed(Loaded(s, o.loaded), o.client, o.ip, o.pick);
    Stamp(placed[key], o.client, o.ip)
  }

  ghost predicate HasFirstSeen(s: Store) {
    forall key :: key in s ==> !s[key].firstSeen.Absent?
  }

  lemma PlacedHasFirstSeen(s: Store, o: Observation)
    requires HasFirstSeen(s)
    ensures var (placed, key) := Placed(s, o.client, o.ip, o.pick); HasFirstSeen(placed) && key in placed
  {
    hide MergeNames;
  }

  lemma ApplyHasFirstSeen(e: Entry, u: Update)
    requires !e.firstSeen.Absent?
    ensures !Apply(e, u).firstSeen.Absent?
  {
    hide Identify, Overlay;
  }

  /** No observation takes the key first_seen from an entry, or is given an entry without it. */
  lemma FirstSeenStep(s: Store, o: Observation)
    requires HasFirstSeen(s)
    ensures !Given(s, o).firstSeen.Absent? && HasFirstSeen(Observe(s, o))
  {
    PlacedHasFirstSeen(Loaded(s, o.loaded), o);
    ApplyHasFirstSeen(Given(s, o), o.update);
    hide Placed, Apply;
  }

  /** On every reachable store every entry has the key first_seen, and so does every entry a hook is given: the
      hooks' setdefault("first_seen", ..) never changes anything. */
  lemma {:induction false} SetDefaultIsIdle(stores: seq<Store>, observations: seq<Observation>, i: nat)
    requires IsRun(stores, observations) && stores[0] == map[] && i < |stores|
    ensures HasFirstSeen(stores[i])
    ensures i < |observations| ==> forall now ::
              SetDefault(Given(stores[i], observations[i]).firstSeen, now) == Given(stores[i], observations[i]).firstSeen
  {
    hide Observe, Given;
    if i > 0 {
      SetDefaultIsIdle(stores, observations, i - 1);
      FirstSeenStep(stores[i - 1], observations[i - 1]);
    }
    if i < |observations| {
      FirstSeenStep(stores[i], observations[i]);
    }
  }
}

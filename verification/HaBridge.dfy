/** The bridge itself: the methods of HaBridge that resolve, publish and announce, proved to do what
    BridgeModel and BridgeRun say of them (bridge/mttl_ha_bridge.py). */
module HaBridge {
  import opened Discovery
  import opened MacIdentity
  import opened StickyIdentity
  import opened BridgeModel
  import opened BridgeRun
  import BridgeAvailability
  import A = Availability

  /** The HA client and the broker behind it. */
  class HaClient {
    const weather: nat -> Weather
    var link: Link

    constructor (weather: nat -> Weather, link: Link)
      ensures this.weather == weather && this.link == link
    {
      this.weather := weather;
      this.link := link;
    }

    /** _pub: publishes if connected, else drops the message silently. */
    method Publish(topic: Topic, payload: Payload, retain: bool)
      modifies this
      ensures link == Send(old(link), weather, topic, payload, retain)
    {
      link := Pass(link, weather);
      if link.up {
        if retain {
          link := link.(retained := link.retained[topic := payload]);
        }
        link := link.(sent := link.sent + [Msg(topic, payload)]);
      }
    }

    /** A publish point at which there is nothing to publish. */
    method Idle()
      modifies this
      ensures link == Pass(old(link), weather)
    {
      link := Pass(link, weather);
    }

    method ClearRepublishRequest()
      modifies this
      ensures link == old(link).(needRepublish := false)
    {
      link := link.(needRepublish := false);
    }
  }

  class HaBridge {
    const settings: Settings
    const ha: HaClient
    const avail: A.AvailabilityMachine
    const slugmap: SlugMap

    var lastPub: map<Slug, Record>
    var vtpePub: map<Slug, bool>
    var slug2cid: map<Slug, string>
    var lastState: real
    ghost var masked: set<Slug>
    ghost var cids: set<string>

    ghost predicate Valid()
      reads this
    {
      !settings.cfg.eager && settings.cfg.weather == ha.weather && settings.grace == avail.grace
    }

    function Hub(): Hub
      reads this, ha
    {
      BridgeModel.Hub.Hub(lastPub, vtpePub, ha.link)
    }

    ghost function State(): Sys
      reads this, ha, avail, slugmap, slugmap.file
    {
      Sys(Hub(), avail.slots, slugmap.View(), lastState, masked, cids)
    }

    constructor (settings: Settings, ha: HaClient, file: SlugFile)
      requires !settings.cfg.eager && settings.cfg.weather == ha.weather
      requires !ha.link.up && !ha.link.needRepublish && ha.link.sent == []
      ensures Valid() && Fresh(State())
      ensures this.ha == ha && slugmap.file == file && fresh(avail) && fresh(slugmap)
    {
      this.settings := settings;
      this.ha := ha;
      avail := new A.AvailabilityMachine(settings.grace);
      slugmap := new SlugMap(file);
      lastPub, vtpePub, slug2cid := map[], map[], map[];
      lastState := 0.0;
      masked, cids := {}, {};
    }

    // ---- publish helpers --------------------------------------------------------

    method PublishDiscovery(slug: Slug, mac: string, vtpe: bool)
      requires Valid()
      modifies this`vtpePub, ha
      ensures Hub() == BridgeModel.PublishDiscovery(old(Hub()), settings.cfg, slug, mac, vtpe)
    {
      var items := BuildDiscovery(slug, mac, vtpe);
      for i := 0 to |items|
        invariant ha.link == SendAll(old(ha.link), settings.cfg.weather, items[..i])
        invariant vtpePub == old(vtpePub)
      {
        TakeOneMore(items, i);
        ha.Publish(items[i].topic, items[i].payload, true);
      }
      assert items[..|items|] == items;
      vtpePub := vtpePub[slug := vtpe];
    }

    /** Publish a text unless the cache already holds it. */
    method PublishField(slug: Slug, field: Field, text: string, force: bool)
      requires Valid()
      modifies this`lastPub, ha
      ensures Hub() == Put(old(Hub()), settings.cfg, slug, field, text, force)
    {
      var rec := RecordOf(Hub(), slug);
      if force || field !in rec || rec[field] != text {
        ha.Publish(Discovery.Topic.State(slug, field), Text(text), field != Voltage);
        lastPub := lastPub[slug := rec[field := text]];
      } else {
        ha.Idle();
      }
    }

    method PublishDeviceState(slug: Slug, entry: Entry, force: bool)
      requires Valid()
      modifies this`lastPub, ha
      ensures Hub() == BridgeModel.PublishDeviceState(old(Hub()), settings.cfg, slug, entry, force)
    {
      hide PutFields;
      lastPub := lastPub[slug := RecordOf(Hub(), slug)];
      ghost var h0 := Hub();
      PublishOutlets(slug, entry, force);
      PublishPowers(slug, entry, force);
      PutFieldsConcat(h0, settings.cfg, slug, entry, OUTLETS, POWERS, force);
      if !entry.vtpeSeen {
        return;
      }
      PublishVoltage(slug, entry, force);
      PublishTemperatures(slug, entry, force);
      PublishEnergies(slug, entry, force);
      PutFieldsConcat(h0, settings.cfg, slug, entry, BASE, [Voltage], force);
      PutFieldsConcat(h0, settings.cfg, slug, entry, BASE + [Voltage], TEMPS, force);
      PutFieldsConcat(h0, settings.cfg, slug, entry, BASE + [Voltage] + TEMPS, ENERGIES, force);
      assert BASE + [Voltage] + TEMPS + ENERGIES == BASE + VTPE;
    }

    method PublishOutlets(slug: Slug, entry: Entry, force: bool)
      requires Valid()
      modifies this`lastPub, ha
      ensures Hub() == PutFields(old(Hub()), settings.cfg, slug, entry, OUTLETS, force)
    {
      hide Put;
      for n := 0 to 5
        invariant Hub() == PutFields(old(Hub()), settings.cfg, slug, entry, OUTLETS[..n], force)
      {
        TakeOneMore(OUTLETS, n);
        assert OUTLETS[n] == Outlet(n);
        if n in entry.power {
          PublishField(slug, Outlet(n), if entry.power[n] then "ON" else "OFF", force);
        }
      }
      assert OUTLETS[..5] == OUTLETS;
    }

    method PublishPowers(slug: Slug, entry: Entry, force: bool)
      requires Valid()
      modifies this`lastPub, ha
      ensures Hub() == PutFields(old(Hub()), settings.cfg, slug, entry, POWERS, force)
    {
      hide Put, PowerWatts;
      for n := 0 to 5
        invariant Hub() == PutFields(old(Hub()), settings.cfg, slug, entry, POWERS[..n], force)
      {
        TakeOneMore(POWERS, n);
        assert POWERS[n] == Power(n);
        var watts := PowerWatts(entry.meterWatts, n);
        if watts.Some? {
          PublishField(slug, Power(n), settings.cfg.fmt.watts(watts.value), force);
        }
      }
      assert POWERS[..5] == POWERS;
    }

    method PublishVoltage(slug: Slug, entry: Entry, force: bool)
      requires Valid()
      modifies this`lastPub, ha
      ensures Hub() == PutFields(old(Hub()), settings.cfg, slug, entry, [Voltage], force)
    {
      assert [Voltage][..0] == [];
      if entry.voltage.Some? {
        PublishField(slug, Voltage, settings.cfg.fmt.tenths(entry.voltage.value), force);
      }
    }

    method PublishTemperatures(slug: Slug, entry: Entry, force: bool)
      requires Valid()
      modifies this`lastPub, ha
      ensures Hub() == PutFields(old(Hub()), settings.cfg, slug, entry, TEMPS, force)
    {
      hide Put;
      for n := 1 to 5
        invariant Hub() == PutFields(old(Hub()), settings.cfg, slug, entry, TEMPS[..n - 1], force)
      {
        TakeOneMore(TEMPS, n - 1);
        assert TEMPS[n - 1] == Temp(n);
        if n in entry.temperature {
          PublishField(slug, Temp(n), settings.cfg.fmt.tenths(entry.temperature[n]), force);
        }
      }
      assert TEMPS[..4] == TEMPS;
    }

    method PublishEnergies(slug: Slug, entry: Entry, force: bool)
      requires Valid()
      modifies this`lastPub, ha
      ensures Hub() == PutFields(old(Hub()), settings.cfg, slug, entry, ENERGIES, force)
    {
      hide Put;
      for n := 0 to 5
        invariant Hub() == PutFields(old(Hub()), settings.cfg, slug, entry, ENERGIES[..n], force)
      {
        TakeOneMore(ENERGIES, n);
        assert ENERGIES[n] == Energy(n);
        if n in entry.energy {
          PublishField(slug, Energy(n), settings.cfg.fmt.kwh(entry.energy[n]), force);
        }
      }
      assert ENERGIES[..5] == ENERGIES;
    }

    method SetAvailability(slug: Slug, online: bool)
      requires Valid()
      modifies this`lastPub, ha
      ensures Hub() == BridgeModel.SetAvailability(old(Hub()), settings.cfg, slug, online)
    {
      lastPub := lastPub[slug := RecordOf(Hub(), slug)];
      PublishField(slug, Field.Availability, if online then "online" else "offline", false);
    }

    // ---- the passes of one iteration ---------------------------------------------

    /** After a (re)connect: clear the caches and publish everything anew. */
    method Republish(devs: seq<Dev>)
      requires Valid()
      modifies this`lastPub, this`vtpePub, ha
      ensures Hub() == if Republishes(old(Hub()))
                       then DoAll(Cleared(old(Hub()), settings.cfg), settings.cfg, RepublishJobs(devs, avail.slots))
                       else old(Hub())
    {
      hide Do;
      if ha.link.needRepublish && ha.link.up {
        ha.ClearRepublishRequest();
        lastPub := map[];
        vtpePub := map[];
        ha.Publish(BridgeStatus, Text("online"), true);
        ghost var h1 := Hub();
        ghost var jobs := RepublishJobs(devs, avail.slots);
        for i := 0 to |devs|
          invariant Hub() == DoAll(h1, settings.cfg, jobs[..i])
        {
          TakeOneMore(jobs, i);
          RepublishDevice(devs[i]);
        }
        assert jobs[..|devs|] == jobs;
      }
    }

    method RepublishDevice(d: Dev)
      requires Valid()
      modifies this`lastPub, this`vtpePub, ha
      ensures Hub() == Do(old(Hub()), settings.cfg, RepublishJob(d, avail.slots))
    {
      hide BridgeModel.PublishDiscovery, BridgeModel.SetAvailability, BridgeModel.PublishDeviceState;
      PublishDiscovery(d.slug, d.mac, d.entry.vtpeSeen);
      var online := A.PhaseOf(avail.slots, d.slug) == A.Up;
      SetAvailability(d.slug, online);
      if online {
        PublishDeviceState(d.slug, d.entry, true);
      }
    }

    /** A device that has now sent full v/t/p/e telemetry gets its extra configs, once. */
    method DeclareVtpe(devs: seq<Dev>)
      requires Valid()
      modifies this`lastPub, this`vtpePub, ha
      ensures Hub() == DoAll(old(Hub()), settings.cfg, VtpeJobs(devs, avail.slots))
    {
      hide Do;
      ghost var jobs := VtpeJobs(devs, avail.slots);
      for i := 0 to |devs|
        invariant Hub() == DoAll(old(Hub()), settings.cfg, jobs[..i])
      {
        TakeOneMore(jobs, i);
        DeclareVtpeOf(devs[i]);
      }
      assert jobs[..|devs|] == jobs;
    }

    method DeclareVtpeOf(d: Dev)
      requires Valid()
      modifies this`lastPub, this`vtpePub, ha
      ensures Hub() == Do(old(Hub()), settings.cfg, VtpeJob(d, avail.slots))
    {
      hide BridgeModel.PublishDiscovery, BridgeModel.PublishDeviceState;
      if d.entry.vtpeSeen && !(d.slug in vtpePub && vtpePub[d.slug]) && ha.link.up {
        PublishDiscovery(d.slug, d.mac, true);
        if A.PhaseOf(avail.slots, d.slug) == A.Up {
          PublishDeviceState(d.slug, d.entry, true);
        }
      }
    }

    method HandleEvents(devs: seq<Dev>, events: seq<(Slug, A.Event)>)
      requires Valid() && EventsKnown(events, devs)
      modifies this`lastPub, this`vtpePub, ha
      ensures Hub() == DoAll(old(Hub()), settings.cfg, EventJobs(devs, events))
    {
      hide Do;
      ghost var jobs := EventJobs(devs, events);
      for i := 0 to |events|
        invariant Hub() == DoAll(old(Hub()), settings.cfg, jobs[..i])
      {
        TakeOneMore(jobs, i);
        HandleEvent(DevOf(devs, events[i].0), events[i].1);
      }
      assert jobs[..|events|] == jobs;
    }

    method HandleEvent(d: Dev, event: A.Event)
      requires Valid()
      modifies this`lastPub, this`vtpePub, ha
      ensures Hub() == Do(old(Hub()), settings.cfg, EventJob(d, event))
    {
      hide BridgeModel.PublishDiscovery, BridgeModel.SetAvailability, BridgeModel.PublishDeviceState;
      if event == A.Online || event == A.OnlineRepublish {
        if d.slug !in lastPub {
          PublishDiscovery(d.slug, d.mac, d.entry.vtpeSeen);
        }
        SetAvailability(d.slug, true);
        PublishDeviceState(d.slug, d.entry, true);
      } else {
        SetAvailability(d.slug, false);
      }
    }

    method StateTick(devs: seq<Dev>)
      requires Valid()
      modifies this`lastPub, ha
      ensures Hub() == DoAll(old(Hub()), settings.cfg, TickJobs(devs, avail.slots))
    {
      ghost var jobs := TickJobs(devs, avail.slots);
      for i := 0 to |devs|
        invariant Hub() == DoAll(old(Hub()), settings.cfg, jobs[..i])
      {
        TakeOneMore(jobs, i);
        if A.PhaseOf(avail.slots, devs[i].slug) == A.Up {
          PublishDeviceState(devs[i].slug, devs[i].entry, false);
        }
      }
      assert jobs[..|devs|] == jobs;
    }

    // ---- identities ---------------------------------------------------------------

    method ResolveDevices(devices: seq<Device>, writable: string -> bool) returns (devs: seq<Dev>)
      modifies this`slug2cid, slugmap, slugmap.file
      ensures (slugmap.View(), devs) == ResolveAll(old(slugmap.View()), devices, writable, settings.sha256)
      ensures forall slug :: slug in slug2cid <==> slug in Slugs(devs)
      ensures forall d :: d in devs ==> slug2cid[d.slug] == d.cid
    {
      slug2cid := map[];
      devs := [];
      for i := 0 to |devices|
        invariant (slugmap.View(), devs) == ResolveAll(old(slugmap.View()), devices[..i], writable, settings.sha256)
        invariant forall slug :: slug in slug2cid <==> slug in Slugs(devs)
        invariant forall d :: d in devs ==> slug2cid[d.slug] == d.cid
      {
        TakeOneMore(devices, i);
        var device := devices[i];
        var mac := slugmap.ResolveMac(device.cid, device.claim, writable(device.cid));
        if mac.Some? {
          var slug := DeviceSlug(device.cid, mac, settings.sha256);
          ghost var before := devs;
          devs := Upsert(devs, Dev(slug, device.cid, mac.value, device.entry));
          slug2cid := slug2cid[slug := device.cid];
          UpsertSlugs(before, Dev(slug, device.cid, mac.value, device.entry));
        }
      }
      assert devices[..|devices|] == devices;
    }

    /** The live sessions' slugs. Asking learns nothing that the pass over the snapshot did not. */
    method ResolveLive(devices: seq<Device>, live: set<string>, writable: string -> bool) returns (slugs: set<Slug>)
      requires forall d :: d in devices && d.cid != "" && Resolved(slugmap.View(), d.cid, d.claim).Some? ==>
                 d.cid in slugmap.bindings
      modifies slugmap, slugmap.file
      ensures slugmap.View() == old(slugmap.View())
      ensures slugs == LiveSlugs(slugmap.View(), devices, live, settings.sha256)
    {
      slugs := {};
      var rest := live;
      while rest != {}
        invariant rest <= live
        invariant slugmap.View() == old(slugmap.View())
        invariant slugs == LiveSlugs(slugmap.View(), devices, live - rest, settings.sha256)
        decreases |rest|
      {
        var cid :| cid in rest;
        var claim := ClaimOf(devices, cid);
        ClaimIsFromSnapshot(devices, cid);
        LiveSlugsGrow(slugmap.View(), devices, live - rest, cid, settings.sha256);
        assert (live - rest) + {cid} == live - (rest - {cid});
        var mac := slugmap.ResolveMac(cid, claim, writable(cid));
        if mac.Some? {
          slugs := slugs + {DeviceSlug(cid, mac, settings.sha256)};
        }
        rest := rest - {cid};
      }
      assert live - rest == live;
    }

    // ---- one iteration of the main loop ------------------------------------------

    method Iterate(devices: seq<Device>, live: set<string>, now: real, writable: string -> bool)
      returns (ghost input: Input)
      requires Valid() && DistinctIds(devices) && Consistent(slugmap.View())
      modifies this, ha, avail, slugmap, slugmap.file
      ensures Valid() && Consistent(slugmap.View())
      ensures input.devices == devices && input.live == live && input.now == now && input.writable == writable
      ensures ValidInput(old(State()), settings, input)
      ensures State() == LoopOnce(old(State()), settings, input)
    {
      hide BridgeModel.DoAll, Load, CleanMac;
      ghost var s := State();
      ResolveAllIdentifies(s.ids, devices, writable, settings.sha256);
      var devs := ResolveDevices(devices, writable);
      var slugs := ResolveLive(devices, live, writable);
      Republish(devs);
      DeclareVtpe(devs);
      ghost var opening := Hub();
      var events, order := avail.Observe(slugs, Slugs(devs), now);
      input := Input(devices, live, now, writable, order);
      assert SceneOf(s, settings, input) == Scene(slugmap.View(), devs, slugs);
      InputEvents(s, settings, input);
      HandleEvents(devs, events);
      var ticks := now - lastState >= settings.stateInterval;
      if ticks {
        lastState := now;
        StateTick(devs);
      }
      masked := BridgeAvailability.NextMasked(masked, Republishes(s.hub), devs, s.slots, events);
      cids := DeviceIds(devices);
      PassesMakeIteration(s.hub, settings.cfg, devs, s.slots, events, avail.slots, ticks);
    }
  }

  lemma TakeOneMore<T>(s: seq<T>, n: nat)
    requires n < |s|
    ensures s[..n + 1][..n] == s[..n] && s[..n + 1][n] == s[n]
  {
  }

  /** The passes, one after the other, are the iteration. */
  lemma PassesMakeIteration(h: Hub, cfg: Cfg, devs: seq<Dev>, before: map<Slug, A.Slot>, events: seq<(Slug, A.Event)>,
                            after: map<Slug, A.Slot>, tick: bool)
    requires EventsKnown(events, devs)
    ensures var h1 := if Republishes(h) then DoAll(Cleared(h, cfg), cfg, RepublishJobs(devs, before)) else h;
            var h2 := DoAll(h1, cfg, VtpeJobs(devs, before));
            var h3 := DoAll(h2, cfg, EventJobs(devs, events));
            var h4 := if tick then DoAll(h3, cfg, TickJobs(devs, after)) else h3;
            h4 == BridgeModel.Iterate(h, cfg, devs, before, events, after, tick)
  {
    hide Do;
    var start := Opened(h, cfg);
    var first := if Republishes(h) then RepublishJobs(devs, before) else [];
    var second, third := VtpeJobs(devs, before), EventJobs(devs, events);
    var fourth := if tick then TickJobs(devs, after) else [];
    assert Plan(Republishes(h), devs, before, events, after, tick) == first + second + third + fourth;
    DoAllConcat(start, cfg, first + second + third, fourth);
    DoAllConcat(start, cfg, first + second, third);
    DoAllConcat(start, cfg, first, second);
  }

  lemma {:induction false} ClaimIsFromSnapshot(devices: seq<Device>, cid: string)
    ensures ClaimOf(devices, cid) == NO_CLAIM || exists d :: d in devices && d.cid == cid && d.claim == ClaimOf(devices, cid)
  {
    if devices != [] {
      ClaimIsFromSnapshot(devices[..|devices| - 1], cid);
      assert devices == devices[..|devices| - 1] + [devices[|devices| - 1]];
    }
  }

  lemma LiveSlugsGrow(ids: Ids, devices: seq<Device>, live: set<string>, cid: string, sha256: string -> Digest)
    ensures var mac := Resolved(ids, cid, ClaimOf(devices, cid));
            LiveSlugs(ids, devices, live + {cid}, sha256)
            == LiveSlugs(ids, devices, live, sha256) + if mac.Some? then {DeviceSlug(cid, mac, sha256)} else {}
  {
  }
}

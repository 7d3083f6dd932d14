/** What holds at every moment of every run of the bridge: discovery before state, truthful availability,
    and MAC slugs only. */
module BridgeSafety {
  import opened Options
  import opened Discovery
  import opened MacIdentity
  import opened StickyIdentity
  import opened BridgeModel
  import opened BridgePublishing
  import opened BridgeOrdering
  import opened BridgeAvailability
  import opened BridgeTraffic
  import opened BridgeRun
  import A = Availability

  // ---- theorem: discovery before state ----------------------------------------------

  /** The snapshot of every republish has every device that is then up or in grace. */
  ghost predicate RepublishesSeePresent(states: seq<Sys>, settings: Settings, steps: seq<Step>) {
    |states| > |steps| &&
    forall i :: 0 <= i < |steps| && steps[i].Loop? && Republishes(states[i].hub) ==>
      PresentSeen(SceneOf(states[i], settings, steps[i].input).devs, states[i].slots)
  }

  ghost predicate Orderly(s: Sys) {
    PromisedAtRest(s.hub) && PresentCached(s.hub, s.slots)
  }

  /** An iteration that republishes needs to see the present devices; any other needs them cached. */
  lemma LoopOrderly(s: Sys, settings: Settings, input: Input)
    requires NoReturns(settings.cfg.weather) && ValidInput(s, settings, input)
    requires Consistent(s.ids) && PromisedAtRest(s.hub)
    requires PresentKnown(s.hub, SceneOf(s, settings, input).devs, s.slots)
    ensures Orderly(LoopOnce(s, settings, input)) && Settled(LoopOnce(s, settings, input).hub)
  {
    hide Iterate, ResolveAll, Load;
    var scene := SceneOf(s, settings, input);
    ResolveAllIdentifies(s.ids, input.devices, input.writable, settings.sha256);
    InputEvents(s, settings, input);
    IteratePromised(s.hub, settings.cfg, scene.devs, scene.live, s.slots, EventsIn(s, settings, input),
                    SlotsAfter(s, settings, input), input.now, settings.grace, Ticks(s, settings, input));
  }

  lemma NextOrderly(s: Sys, settings: Settings, step: Step)
    requires NoReturns(settings.cfg.weather) && ValidStep(s, settings, step)
    requires Consistent(s.ids) && Orderly(s)
    requires step.Loop? && Republishes(s.hub) ==> PresentSeen(SceneOf(s, settings, step.input).devs, s.slots)
    ensures Orderly(Next(s, settings, step))
    ensures Settled(s.hub) && !step.Connect? ==> Settled(Next(s, settings, step).hub)
  {
    hide Iterate, ResolveAll, Load;
    if step.Loop? {
      LoopOrderly(s, settings, step.input);
    }
  }

  /** Discovery before state: in every run in which each republish sees the devices that are then up or
      in grace, and the connection, which may drop anywhere, only comes back between iterations, every
      state or availability message of a connection follows, in that connection, a config naming it. */
  lemma {:induction false} DiscoveryBeforeState(states: seq<Sys>, settings: Settings, steps: seq<Step>, i: nat)
    requires NoReturns(settings.cfg.weather) && IsRun(states, settings, steps) && Fresh(states[0])
    requires RepublishesSeePresent(states, settings, steps) && i < |states|
    ensures Orderly(states[i])
    ensures Ordered(states[i].hub.link.sent)
  {
    if i > 0 {
      DiscoveryBeforeState(states, settings, steps, i - 1);
      IdsConsistent(states, settings, steps, i - 1);
      NextOrderly(states[i - 1], settings, steps[i - 1]);
    }
  }

  // ---- when no device leaves the snapshot ---------------------------------------------

  /** The empty client_id, which is never learned, always claims the same MAC. */
  ghost predicate EmptyIdClaims(steps: seq<Step>, claimed: Option<string>) {
    forall i, d :: 0 <= i < |steps| && steps[i].Loop? && d in steps[i].input.devices && d.cid == "" ==>
      FirstCleanMac(d.claim) == claimed
  }

  /** Since the bridge started, no client_id has left the snapshot, and the empty one has not changed its claim. */
  ghost predicate NothingVanishes(states: seq<Sys>, steps: seq<Step>) {
    && |states| > |steps|
    && (forall i :: 0 <= i < |steps| && steps[i].Loop? ==> states[i].cids <= DeviceIds(steps[i].input.devices))
    && exists claimed :: EmptyIdClaims(steps, claimed)
  }

  /** The MAC that stands for a client_id of the snapshot. */
  function MacOf(ids: Ids, cid: string, claimed: Option<string>): Option<string> {
    if cid in ids.memory then Some(ids.memory[cid]) else if cid == "" then claimed else None
  }

  /** Every slug that was ever live belongs to a client_id of the last snapshot. */
  ghost predicate Covered(s: Sys, claimed: Option<string>) {
    forall slug :: A.PhaseOf(s.slots, slug) != A.Init ==>
      exists cid :: cid in s.cids && MacOf(s.ids, cid, claimed) == Some(slug)
  }

  lemma CoveredNext(s: Sys, settings: Settings, input: Input, claimed: Option<string>)
    requires ValidInput(s, settings, input) && Consistent(s.ids) && Covered(s, claimed)
    requires s.cids <= DeviceIds(input.devices)
    requires forall d :: d in input.devices && d.cid == "" ==> FirstCleanMac(d.claim) == claimed
    ensures PresentSeen(SceneOf(s, settings, input).devs, s.slots)
    ensures Covered(LoopOnce(s, settings, input), claimed)
  {
    hide Iterate, ResolveAll, CleanMac, FirstCleanMac, Load, Canonical;
    var scene := SceneOf(s, settings, input);
    ResolveAllIdentifies(s.ids, input.devices, input.writable, settings.sha256);
    hide Consistent, DistinctSlugs;
    forall slug | A.PhaseOf(s.slots, slug) != A.Init
      ensures slug in Slugs(scene.devs)
      ensures exists cid :: cid in DeviceIds(input.devices) && MacOf(scene.ids, cid, claimed) == Some(slug)
    {
      var cid :| cid in s.cids && MacOf(s.ids, cid, claimed) == Some(slug);
      assert MacOf(scene.ids, cid, claimed) == Some(slug);
      var d :| d in input.devices && d.cid == cid;
      assert Resolved(scene.ids, cid, d.claim) == Some(slug);
    }
    var after := SlotsAfter(s, settings, input);
    forall slug | A.PhaseOf(after, slug) != A.Init
      ensures exists cid :: cid in DeviceIds(input.devices) && MacOf(scene.ids, cid, claimed) == Some(slug)
    {
      if A.PhaseOf(s.slots, slug) == A.Init {
        var d := DevOf(scene.devs, slug);
        var x :| x in input.devices && x.cid == d.cid && Resolved(scene.ids, x.cid, x.claim) == Some(d.slug);
        assert MacOf(scene.ids, x.cid, claimed) == Some(slug);
      }
    }
  }

  lemma {:induction false} AlwaysCovered(states: seq<Sys>, settings: Settings, steps: seq<Step>, i: nat,
        claimed: Option<string>)
    requires IsRun(states, settings, steps) && Fresh(states[0]) && NothingVanishes(states, steps) && i < |states|
    requires EmptyIdClaims(steps, claimed)
    ensures Covered(states[i], claimed)
  {
    hide Iterate, ResolveAll, Load;
    if i > 0 {
      AlwaysCovered(states, settings, steps, i - 1, claimed);
      IdsConsistent(states, settings, steps, i - 1);
      if steps[i - 1].Loop? {
        CoveredNext(states[i - 1], settings, steps[i - 1].input, claimed);
      }
    }
  }

  /** When no client_id ever leaves the snapshot, every republish sees every device that is present. */
  lemma NothingVanishesSuffices(states: seq<Sys>, settings: Settings, steps: seq<Step>)
    requires IsRun(states, settings, steps) && Fresh(states[0]) && NothingVanishes(states, steps)
    ensures RepublishesSeePresent(states, settings, steps)
  {
    hide Iterate, ResolveAll, Load, SceneOf;
    var claimed :| EmptyIdClaims(steps, claimed);
    forall i | 0 <= i < |steps| && steps[i].Loop?
      ensures PresentSeen(SceneOf(states[i], settings, steps[i].input).devs, states[i].slots)
    {
      AlwaysCovered(states, settings, steps, i, claimed);
      IdsConsistent(states, settings, steps, i);
      CoveredNext(states[i], settings, steps[i].input, claimed);
    }
  }

  // ---- theorem: the announced availability -------------------------------------------

  lemma NextTruthful(s: Sys, settings: Settings, step: Step)
    requires ValidStep(s, settings, step) && Consistent(s.ids)
    requires Truthful(s.hub, s.slots, s.masked)
    ensures var next := Next(s, settings, step); Truthful(next.hub, next.slots, next.masked)
  {
    hide Iterate, ResolveAll, Load;
    if step.Loop? {
      var input := step.input;
      var scene := SceneOf(s, settings, input);
      ResolveAllIdentifies(s.ids, input.devices, input.writable, settings.sha256);
      InputEvents(s, settings, input);
      IterateTruthful(s.hub, settings.cfg, scene.devs, scene.live, s.slots, EventsIn(s, settings, input),
                      SlotsAfter(s, settings, input), input.now, settings.grace, Ticks(s, settings, input), s.masked);
    }
  }

  /** In every run a cached availability is "online" exactly when its slug is up or in grace -- except for
      slugs whose latest republish fell into their grace period with no event since; those say "offline". */
  lemma {:induction false} AvailabilityIsTruthful(states: seq<Sys>, settings: Settings, steps: seq<Step>, i: nat)
    requires IsRun(states, settings, steps) && Fresh(states[0]) && i < |states|
    ensures Truthful(states[i].hub, states[i].slots, states[i].masked)
  {
    if i > 0 {
      AvailabilityIsTruthful(states, settings, steps, i - 1);
      IdsConsistent(states, settings, steps, i - 1);
      NextTruthful(states[i - 1], settings, steps[i - 1]);
    }
  }

  /** No republish ever lands while a device is in its grace period. */
  ghost predicate NoRepublishInGrace(states: seq<Sys>, settings: Settings, steps: seq<Step>) {
    |states| > |steps| &&
    forall i :: 0 <= i < |steps| && steps[i].Loop? && Republishes(states[i].hub) ==>
      InGrace(SceneOf(states[i], settings, steps[i].input).devs, states[i].slots) == {}
  }

  lemma {:induction false} NothingMasked(states: seq<Sys>, settings: Settings, steps: seq<Step>, i: nat)
    requires IsRun(states, settings, steps) && Fresh(states[0]) && i < |states|
    requires NoRepublishInGrace(states, settings, steps)
    ensures states[i].masked == {}
  {
    hide Iterate, ResolveAll, Load;
    if i > 0 {
      NothingMasked(states, settings, steps, i - 1);
    }
  }

  /** So without such a republish the announcement is simply the machine's state. */
  lemma OnlineExactlyWhenPresent(states: seq<Sys>, settings: Settings, steps: seq<Step>, i: nat, slug: Slug)
    requires IsRun(states, settings, steps) && Fresh(states[0]) && i < |states|
    requires NoRepublishInGrace(states, settings, steps)
    requires CachedAvailability(states[i].hub, slug).Some?
    ensures CachedAvailability(states[i].hub, slug).value == "online" <==> IsPresent(states[i].slots, slug)
  {
    AvailabilityIsTruthful(states, settings, steps, i);
    NothingMasked(states, settings, steps, i);
  }

  /** And with one it is wrong: a republish that finds a device in its grace period announces it
      offline, even in an iteration in which the device is back and its machine goes up. */
  lemma RepublishInGraceHidesReturn(s: Sys, settings: Settings, input: Input, slug: Slug)
    requires ValidInput(s, settings, input) && Consistent(s.ids)
    requires Republishes(s.hub) && A.PhaseOf(s.slots, slug) == A.Grace
    requires slug in Slugs(SceneOf(s, settings, input).devs) && slug in SceneOf(s, settings, input).live
    ensures var next := LoopOnce(s, settings, input);
            && IsUp(next.slots, slug) && slug in next.masked
            && CachedAvailability(next.hub, slug) == Some("offline")
  {
    hide Iterate, ResolveAll, Load;
    var scene := SceneOf(s, settings, input);
    ResolveAllIdentifies(s.ids, input.devices, input.writable, settings.sha256);
    InputEvents(s, settings, input);
    var events := EventsIn(s, settings, input);
    EventsMatch(events, scene.devs, scene.live, s.slots, SlotsAfter(s, settings, input), input.now, settings.grace);
    IterationAnnounces(s.hub, settings.cfg, scene.devs, s.slots, events, SlotsAfter(s, settings, input),
                       Ticks(s, settings, input), slug);
    assert slug !in EventSlugs(events);
    assert DevOf(scene.devs, slug) in scene.devs;
  }

  /** The mistake lasts: while the device stays live and nothing republishes, it stays announced offline. */
  lemma HiddenReturnStaysHidden(s: Sys, settings: Settings, input: Input, slug: Slug)
    requires ValidInput(s, settings, input) && Consistent(s.ids)
    requires !Republishes(s.hub) && IsPresent(s.slots, slug) && slug in s.masked
    requires CachedAvailability(s.hub, slug) == Some("offline")
    requires slug in Slugs(SceneOf(s, settings, input).devs) && slug in SceneOf(s, settings, input).live
    ensures var next := LoopOnce(s, settings, input);
            && IsUp(next.slots, slug) && slug in next.masked
            && CachedAvailability(next.hub, slug) == Some("offline")
  {
    hide Iterate, ResolveAll, Load;
    var scene := SceneOf(s, settings, input);
    ResolveAllIdentifies(s.ids, input.devices, input.writable, settings.sha256);
    InputEvents(s, settings, input);
    var events := EventsIn(s, settings, input);
    EventsMatch(events, scene.devs, scene.live, s.slots, SlotsAfter(s, settings, input), input.now, settings.grace);
    IterationAnnounces(s.hub, settings.cfg, scene.devs, s.slots, events, SlotsAfter(s, settings, input),
                       Ticks(s, settings, input), slug);
    assert slug !in EventSlugs(events);
  }

  // ---- theorem: only MAC slugs reach the broker ----------------------------------------

  ghost const MAC_SLUGS: iset<Slug> := iset slug: Slug | Canonical(slug)

  /** The hash slug never appears on the wire: in every run, every topic that reaches the broker, every
      topic a config names, and every cached slug is a canonical MAC. */
  lemma {:induction false} NoHashSlugOnTheWire(states: seq<Sys>, settings: Settings, steps: seq<Step>, i: nat)
    requires IsRun(states, settings, steps) && Fresh(states[0]) && i < |states|
    ensures Mentions(states[i].hub, MAC_SLUGS)
    ensures forall slug :: slug in states[i].slots && IsPresent(states[i].slots, slug) ==> Canonical(slug)
  {
    hide Iterate, ResolveAll, Load, Canonical, Mentions;
    if i == 0 {
      assert Mentions(states[0].hub, MAC_SLUGS) by { NothingMentioned(states[0].hub); }
    } else {
      NoHashSlugOnTheWire(states, settings, steps, i - 1);
      IdsConsistent(states, settings, steps, i - 1);
      var s, step := states[i - 1], steps[i - 1];
      match step
      case Loop(input) => LoopMacSlugs(s, settings, input);
      case _ => SameMentions(s.hub, states[i].hub);
    }
  }

  lemma NothingMentioned(h: Hub)
    requires h.lastPub == map[] && h.link.sent == []
    ensures Mentions(h, MAC_SLUGS)
  {
  }

  lemma SameMentions(h: Hub, next: Hub)
    requires Mentions(h, MAC_SLUGS) && (next.lastPub == h.lastPub || next.lastPub == map[])
    requires next.link.sent == h.link.sent || next.link.sent == []
    ensures Mentions(next, MAC_SLUGS)
  {
    hide MsgAbout;
  }

  lemma LoopMacSlugs(s: Sys, settings: Settings, input: Input)
    requires ValidInput(s, settings, input) && Consistent(s.ids) && Mentions(s.hub, MAC_SLUGS)
    requires forall slug :: slug in s.slots && IsPresent(s.slots, slug) ==> Canonical(slug)
    ensures Mentions(LoopOnce(s, settings, input).hub, MAC_SLUGS)
    ensures var slots := SlotsAfter(s, settings, input);
            forall slug :: slug in slots && IsPresent(slots, slug) ==> Canonical(slug)
  {
    hide Iterate, ResolveAll, Load, Canonical, Mentions;
    var devs := SceneOf(s, settings, input).devs;
    ResolveAllIdentifies(s.ids, input.devices, input.writable, settings.sha256);
    hide Consistent;
    InputEvents(s, settings, input);
    IterateMentions(s.hub, settings.cfg, devs, s.slots, EventsIn(s, settings, input), SlotsAfter(s, settings, input),
                    Ticks(s, settings, input), MAC_SLUGS);
    assert forall slug :: slug in Slugs(devs) ==> Canonical(DevOf(devs, slug).slug);
  }
}

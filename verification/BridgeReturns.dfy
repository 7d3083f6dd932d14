/** Why the connection must not come back within an iteration: without that, and only without that, every
    iteration keeps discovery before state and leaves the broker as unconditional publishing would. */
module BridgeReturns {
  import opened Options
  import opened Orders
  import opened Discovery
  import opened BridgeModel
  import opened BridgePublishing
  import opened BridgeOrdering
  import A = Availability

  // ---- an iteration that publishes one thing ----------------------------------------

  /** The telemetry of a device that has only reported whether its strip is on. */
  function Switched(on: bool): Entry {
    Entry(map[0 := on], map[], false, None, map[], map[])
  }

  /** A state tick for such a device comes down to one publish. */
  lemma OneSwitchTick(h: Hub, cfg: Cfg, d: Dev, before: map<Slug, A.Slot>, after: map<Slug, A.Slot>)
    requires !Republishes(h) && d.entry == Switched(true) && IsUp(after, d.slug)
    ensures Iterate(h, cfg, [d], before, [], after, true) == Put(Touch(h, d.slug), cfg, d.slug, Outlet(0), "ON", false)
  {
    hide PublishDiscovery, Put;
    var vtpeJob, tickJob := VtpeJob(d, before), TickJob(d, after);
    assert Plan(false, [d], before, [], after, true) == [vtpeJob] + [tickJob];
    DoAllConcat(h, cfg, [vtpeJob], [tickJob]);
    DoOne(h, cfg, vtpeJob);
    DoOne(h, cfg, tickJob);
    assert BASE == [Outlet(0)] + BASE[1..];
    var touched := Touch(h, d.slug);
    PutFieldsConcat(touched, cfg, d.slug, d.entry, [Outlet(0)], BASE[1..], false);
    assert [Outlet(0)][..0] == [];
    var shown := Put(touched, cfg, d.slug, Outlet(0), "ON", false);
    assert PutFields(touched, cfg, d.slug, d.entry, [Outlet(0)], false) == shown;
    NothingShown(shown, cfg, d.slug, d.entry, BASE[1..], false);
  }

  const PLUG := Dev("020000000003", "c", "020000000003", Switched(true))

  const PLUG_UP: map<Slug, A.Slot> := map[PLUG.slug := A.Slot(A.Up, None)]

  /** The bridge while disconnected, about to publish for the n-th time; the device came online meanwhile. */
  function Waiting(n: nat, cached: Record): Hub {
    Hub(map[PLUG.slug := cached[Availability := "online"]], map[], Link(false, false, map[], [], n))
  }

  /** The device is up, seen live, and nothing happens to it. */
  lemma PlugStaysUp()
    ensures Slugs([PLUG]) == {PLUG.slug}
    ensures EventsOf([], [PLUG], {PLUG.slug}, PLUG_UP, PLUG_UP, 1.0, 45.0)
  {
    var order := [PLUG.slug];
    assert PLUG in [PLUG];
    assert Slugs([PLUG]) == {PLUG.slug};
    assert Enumerates(order, {PLUG.slug});
    assert A.Events(PLUG_UP, {PLUG.slug}, order, 1.0, 45.0) == [] by {
      assert order[..0] == [];
      assert A.Events(PLUG_UP, {PLUG.slug}, order[..0], 1.0, 45.0) == [];
    }
    assert A.Observed(PLUG_UP, {PLUG.slug}, {PLUG.slug}, 1.0, 45.0) == PLUG_UP;
  }

  // ---- discovery before state, exactly ------------------------------------------------

  /** One iteration, from a bridge at rest that knows its present devices. */
  datatype Round = Round(h: Hub, devs: seq<Dev>, live: set<Slug>, before: map<Slug, A.Slot>,
                         events: seq<(Slug, A.Event)>, after: map<Slug, A.Slot>, now: real, grace: real, tick: bool)

  ghost predicate AtRest(r: Round) {
    && PromisedAtRest(r.h) && DistinctSlugs(r.devs) && PresentKnown(r.h, r.devs, r.before)
    && EventsOf(r.events, r.devs, r.live, r.before, r.after, r.now, r.grace)
  }

  ghost function After(r: Round, cfg: Cfg): Hub
    requires AtRest(r)
  {
    Iterate(r.h, cfg, r.devs, r.before, r.events, r.after, r.tick)
  }

  /** Every iteration from every bridge at rest keeps discovery before state exactly under a weather in
      which the connection never comes back within one. Drops do no harm. */
  lemma OrderedIffNoReturns(cfg: Cfg)
    ensures NoReturns(cfg.weather) <==> forall r :: AtRest(r) ==> Ordered(After(r, cfg).link.sent)
  {
    hide Iterate, Ordered;
    if NoReturns(cfg.weather) {
      forall r | AtRest(r) ensures Ordered(After(r, cfg).link.sent) {
        IteratePromised(r.h, cfg, r.devs, r.live, r.before, r.events, r.after, r.now, r.grace, r.tick);
      }
    } else {
      var n :| cfg.weather(n) == Returns;
      var r := Round(Waiting(n, map[]), [PLUG], {PLUG.slug}, PLUG_UP, [], PLUG_UP, 1.0, 45.0, true);
      PlugStaysUp();
      NothingSentIsOrdered(r.h);
      assert AtRest(r);
      ReturnAtTheTick(cfg, n);
    }
  }

  lemma NothingSentIsOrdered(h: Hub)
    requires !h.link.up && h.link.sent == []
    ensures PromisedAtRest(h)
  {
  }

  /** The tick of a device that was announced while the connection was away. */
  lemma ReturnAtTheTick(cfg: Cfg, n: nat)
    requires cfg.weather(n) == Returns
    requires EventsKnown([], [PLUG])
    ensures !Ordered(Iterate(Waiting(n, map[]), cfg, [PLUG], PLUG_UP, [], PLUG_UP, true).link.sent)
  {
    OneSwitchTick(Waiting(n, map[]), cfg, PLUG, PLUG_UP, PLUG_UP);
    var sent := [Msg(State(PLUG.slug, Outlet(0)), Text("ON"))];
    assert Put(Touch(Waiting(n, map[]), PLUG.slug), cfg, PLUG.slug, Outlet(0), "ON", false).link.sent == sent;
    assert !IsNamed(sent[..0], sent[0].topic);
  }

  // ---- suppression, exactly -------------------------------------------------------------

  ghost predicate InAgreement(r: Round) {
    Agree(r.h) && EventsKnown(r.events, r.devs)
  }

  /** What one iteration leaves at the broker. */
  function Retained(r: Round, cfg: Cfg): map<Topic, Payload>
    requires EventsKnown(r.events, r.devs)
  {
    Iterate(r.h, cfg, r.devs, r.before, r.events, r.after, r.tick).link.retained
  }

  /** From every bridge whose cache agrees with its broker, every iteration leaves what unconditional
      publishing would leave -- exactly under a weather in which the connection never comes back within one. */
  lemma SuppressionInvisibleIffNoReturns(cfg: Cfg)
    requires !cfg.eager
    ensures NoReturns(cfg.weather) <==> forall r :: InAgreement(r) ==> Retained(r, cfg) == Retained(r, Eager(cfg))
  {
    hide Iterate;
    if NoReturns(cfg.weather) {
      forall r | InAgreement(r) ensures Retained(r, cfg) == Retained(r, Eager(cfg)) {
        IterateAlike(r.h, r.h, cfg, r.devs, r.before, r.events, r.after, r.tick);
      }
    } else {
      var n :| cfg.weather(n) == Returns;
      var h := Waiting(n, map[Outlet(0) := "ON"]);
      var r := Round(h, [PLUG], {PLUG.slug}, PLUG_UP, [], PLUG_UP, 1.0, 45.0, true);
      assert InAgreement(r);
      OneSwitchTick(h, cfg, PLUG, PLUG_UP, PLUG_UP);
      OneSwitchTick(h, Eager(cfg), PLUG, PLUG_UP, PLUG_UP);
      assert State(PLUG.slug, Outlet(0)) !in Retained(r, cfg);
      assert State(PLUG.slug, Outlet(0)) in Retained(r, Eager(cfg));
    }
  }
}

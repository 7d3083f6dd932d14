/** What change suppression may and may not do: the cache agrees with the broker, and suppressed
    publishing leaves the broker exactly as unconditional publishing would. */
module BridgePublishing {
  import opened Discovery
  import opened BridgeModel
  import A = Availability

  // ---- the cache agrees with the broker -------------------------------------

  /** While connected with no republish pending, what the cache holds is what the broker retains, and the
      bridge itself is retained as online. */
  ghost predicate Agree(h: Hub) {
    h.link.up && !h.link.needRepublish ==>
      && BridgeStatus in h.link.retained && h.link.retained[BridgeStatus] == Text("online")
      && forall slug, field :: slug in h.lastPub && field in h.lastPub[slug] && IsRetained(field) ==>
        State(slug, field) in h.link.retained && h.link.retained[State(slug, field)] == Text(h.lastPub[slug][field])
  }

  lemma PutAgrees(h: Hub, cfg: Cfg, slug: Slug, field: Field, text: string, force: bool)
    requires Agree(h)
    ensures Agree(Put(h, cfg, slug, field, text, force))
  {
  }

  lemma {:induction false} PutFieldsAgrees(h: Hub, cfg: Cfg, slug: Slug, e: Entry, fields: seq<Field>, force: bool)
    requires Agree(h)
    ensures Agree(PutFields(h, cfg, slug, e, fields, force))
  {
    if fields != [] {
      PutFieldsAgrees(h, cfg, slug, e, fields[..|fields| - 1], force);
      var field := fields[|fields| - 1];
      if Shown(cfg.fmt, e, field).Some? {
        PutAgrees(PutFields(h, cfg, slug, e, fields[..|fields| - 1], force), cfg, slug, field,
                  Shown(cfg.fmt, e, field).value, force);
      }
    }
  }

  /** Sending configs leaves the retained states alone, and cannot end a pending republish. */
  lemma {:induction false} SendAllKeepsStates(l: Link, weather: nat -> Weather, items: seq<Item>)
    requires forall i :: 0 <= i < |items| ==> items[i].topic.Config?
    ensures var l' := SendAll(l, weather, items);
            && (l'.up && !l'.needRepublish ==> l.up && !l.needRepublish)
            && (forall t: Topic :: t.State? ==>
                  ((t in l.retained <==> t in l'.retained) && (t in l.retained ==> l.retained[t] == l'.retained[t])))
            && (l'.up && !l'.needRepublish && BridgeStatus in l.retained ==>
                  BridgeStatus in l'.retained && l'.retained[BridgeStatus] == l.retained[BridgeStatus])
  {
    if items != [] {
      SendAllKeepsStates(l, weather, items[..|items| - 1]);
    }
  }

  lemma DeclaredAgrees(h: Hub, cfg: Cfg, job: Job)
    requires Agree(h)
    ensures Agree(Declared(h, cfg, job))
  {
    var d := job.dev;
    var vtpe := d.entry.vtpeSeen;
    SendAllKeepsStates(h.link, cfg.weather, Declarations(d.slug, d.mac, vtpe, DeclaredFields(vtpe)));
  }

  lemma AnnouncedAgrees(h: Hub, cfg: Cfg, job: Job)
    requires Agree(h)
    ensures Agree(Announced(h, cfg, job))
  {
    if job.announce.Some? {
      PutAgrees(Touch(h, job.dev.slug), cfg, job.dev.slug, Availability, OnlineText(job.announce.value), false);
    }
  }

  lemma DisplayedAgrees(h: Hub, cfg: Cfg, job: Job)
    requires Agree(h)
    ensures Agree(Displayed(h, cfg, job))
  {
    var d := job.dev;
    PutFieldsAgrees(Touch(h, d.slug), cfg, d.slug, d.entry, StateFields(d.entry), job.show == Everything);
  }

  lemma DoAgrees(h: Hub, cfg: Cfg, job: Job)
    requires Agree(h)
    ensures Agree(Do(h, cfg, job))
  {
    DeclaredAgrees(h, cfg, job);
    AnnouncedAgrees(Declared(h, cfg, job), cfg, job);
    DisplayedAgrees(Announced(Declared(h, cfg, job), cfg, job), cfg, job);
  }

  lemma {:induction false} DoAllAgrees(h: Hub, cfg: Cfg, jobs: seq<Job>)
    requires Agree(h)
    ensures Agree(DoAll(h, cfg, jobs))
  {
    if jobs != [] {
      DoAllAgrees(h, cfg, jobs[..|jobs| - 1]);
      DoAgrees(DoAll(h, cfg, jobs[..|jobs| - 1]), cfg, jobs[|jobs| - 1]);
    }
  }

  /** An iteration keeps the agreement, wherever in it the connection drops or returns. */
  lemma IterateAgrees(h: Hub, cfg: Cfg, devs: seq<Dev>, before: map<Slug, A.Slot>, events: seq<(Slug, A.Event)>,
                      after: map<Slug, A.Slot>, tick: bool)
    requires EventsKnown(events, devs)
    requires Agree(h)
    ensures Agree(Iterate(h, cfg, devs, before, events, after, tick))
  {
    DoAllAgrees(Opened(h, cfg), cfg, Plan(Republishes(h), devs, before, events, after, tick));
  }

  // ---- suppression changes nothing at the broker ------------------------------

  ghost predicate NoReturns(weather: nat -> Weather) {
    forall n :: weather(n) != Returns
  }

  /** The same state, apart from the messages sent. */
  ghost predicate Alike(h: Hub, ref: Hub) {
    && h.lastPub == ref.lastPub
    && h.vtpePub == ref.vtpePub
    && h.link.(sent := []) == ref.link.(sent := [])
  }

  /** Between the opening of an iteration and its end: a live link has no republish pending. */
  ghost predicate Settled(h: Hub) {
    h.link.up ==> !h.link.needRepublish
  }

  ghost predicate InStep(h: Hub, ref: Hub) {
    Alike(h, ref) && Agree(h) && Settled(h)
  }

  /** The unsuppressed twin of a configuration. */
  function Eager(cfg: Cfg): Cfg {
    cfg.(eager := true)
  }

  lemma SendAlike(l: Link, ref: Link, weather: nat -> Weather, topic: Topic, payload: Payload, retain: bool)
    requires l.(sent := []) == ref.(sent := [])
    ensures Send(l, weather, topic, payload, retain).(sent := []) == Send(ref, weather, topic, payload, retain).(sent := [])
  {
  }

  lemma SendSettles(h: Hub, weather: nat -> Weather, topic: Topic, payload: Payload, retain: bool)
    requires Settled(h) && NoReturns(weather)
    ensures Settled(h.(link := Send(h.link, weather, topic, payload, retain)))
    ensures Settled(h.(link := Pass(h.link, weather)))
  {
  }

  /** A suppressed text is already where an unsuppressed one would be put. */
  lemma SuppressedTextIsThere(h: Hub, cfg: Cfg, slug: Slug, field: Field)
    requires Agree(h) && Settled(h) && NoReturns(cfg.weather)
    requires slug in h.lastPub && field in h.lastPub[slug]
    ensures var l, text := Pass(h.link, cfg.weather), Text(h.lastPub[slug][field]);
            l.(sent := []) == Send(h.link, cfg.weather, State(slug, field), text, IsRetained(field)).(sent := [])
  {
  }

  lemma PutInStep(h: Hub, ref: Hub, cfg: Cfg, slug: Slug, field: Field, text: string, force: bool)
    requires InStep(h, ref) && NoReturns(cfg.weather)
    ensures InStep(Put(h, cfg, slug, field, text, force), Put(ref, Eager(cfg), slug, field, text, force))
  {
    hide Agree, Send, Pass, NoReturns, IsRetained;
    PutAgrees(h, cfg, slug, field, text, force);
    SendSettles(h, cfg.weather, State(slug, field), Text(text), IsRetained(field));
    SendAlike(h.link, ref.link, cfg.weather, State(slug, field), Text(text), IsRetained(field));
    var rec := RecordOf(h, slug);
    if field in rec && rec[field] == text {
      SuppressedTextIsThere(h, cfg, slug, field);
      assert rec[field := text] == rec;
      assert h.lastPub[slug := rec] == h.lastPub;
    }
  }

  lemma {:induction false} PutFieldsInStep(h: Hub, ref: Hub, cfg: Cfg, slug: Slug, e: Entry,
        fields: seq<Field>, force: bool)
    requires InStep(h, ref) && NoReturns(cfg.weather)
    ensures InStep(PutFields(h, cfg, slug, e, fields, force), PutFields(ref, Eager(cfg), slug, e, fields, force))
  {
    if fields != [] {
      var init := fields[..|fields| - 1];
      PutFieldsInStep(h, ref, cfg, slug, e, init, force);
      var field := fields[|fields| - 1];
      if Shown(cfg.fmt, e, field).Some? {
        PutInStep(PutFields(h, cfg, slug, e, init, force), PutFields(ref, Eager(cfg), slug, e, init, force),
                  cfg, slug, field, Shown(cfg.fmt, e, field).value, force);
      }
    }
  }

  lemma {:induction false} SendAllAlike(l: Link, ref: Link, weather: nat -> Weather, items: seq<Item>)
    requires l.(sent := []) == ref.(sent := [])
    requires NoReturns(weather)
    ensures SendAll(l, weather, items).(sent := []) == SendAll(ref, weather, items).(sent := [])
    ensures SendAll(l, weather, items).needRepublish == l.needRepublish
    ensures SendAll(l, weather, items).up ==> l.up
  {
    if items != [] {
      SendAllAlike(l, ref, weather, items[..|items| - 1]);
    }
  }

  lemma DeclaredInStep(h: Hub, ref: Hub, cfg: Cfg, job: Job)
    requires InStep(h, ref) && NoReturns(cfg.weather)
    ensures InStep(Declared(h, cfg, job), Declared(ref, Eager(cfg), job))
  {
    var d := job.dev;
    var vtpe := d.entry.vtpeSeen;
    DeclaredAgrees(h, cfg, job);
    assert Declares(h, job) <==> Declares(ref, job);
    SendAllAlike(h.link, ref.link, cfg.weather, Declarations(d.slug, d.mac, vtpe, DeclaredFields(vtpe)));
  }

  lemma AnnouncedInStep(h: Hub, ref: Hub, cfg: Cfg, job: Job)
    requires InStep(h, ref) && NoReturns(cfg.weather)
    ensures InStep(Announced(h, cfg, job), Announced(ref, Eager(cfg), job))
  {
    var slug := job.dev.slug;
    if job.announce.Some? {
      PutInStep(Touch(h, slug), Touch(ref, slug), cfg, slug, Availability, OnlineText(job.announce.value), false);
    }
  }

  lemma DisplayedInStep(h: Hub, ref: Hub, cfg: Cfg, job: Job)
    requires InStep(h, ref) && NoReturns(cfg.weather)
    ensures InStep(Displayed(h, cfg, job), Displayed(ref, Eager(cfg), job))
  {
    var d := job.dev;
    PutFieldsInStep(Touch(h, d.slug), Touch(ref, d.slug), cfg, d.slug, d.entry, StateFields(d.entry),
                    job.show == Everything);
  }

  lemma DoInStep(h: Hub, ref: Hub, cfg: Cfg, job: Job)
    requires InStep(h, ref) && NoReturns(cfg.weather)
    ensures InStep(Do(h, cfg, job), Do(ref, Eager(cfg), job))
  {
    assert Declares(h, job) <==> Declares(ref, job);
    DeclaredInStep(h, ref, cfg, job);
    var h1, ref1 := Declared(h, cfg, job), Declared(ref, Eager(cfg), job);
    AnnouncedInStep(h1, ref1, cfg, job);
    DisplayedInStep(Announced(h1, cfg, job), Announced(ref1, Eager(cfg), job), cfg, job);
  }

  lemma {:induction false} DoAllInStep(h: Hub, ref: Hub, cfg: Cfg, jobs: seq<Job>)
    requires InStep(h, ref) && NoReturns(cfg.weather)
    ensures InStep(DoAll(h, cfg, jobs), DoAll(ref, Eager(cfg), jobs))
  {
    if jobs != [] {
      var init := jobs[..|jobs| - 1];
      DoAllInStep(h, ref, cfg, init);
      DoInStep(DoAll(h, cfg, init), DoAll(ref, Eager(cfg), init), cfg, jobs[|jobs| - 1]);
    }
  }

  /** An iteration leaves the bridge and its unsuppressed twin with the same broker. */
  lemma IterateAlike(h: Hub, ref: Hub, cfg: Cfg, devs: seq<Dev>, before: map<Slug, A.Slot>,
                     events: seq<(Slug, A.Event)>, after: map<Slug, A.Slot>, tick: bool)
    requires EventsKnown(events, devs)
    requires Alike(h, ref) && Agree(h) && NoReturns(cfg.weather)
    ensures Alike(Iterate(h, cfg, devs, before, events, after, tick),
                  Iterate(ref, Eager(cfg), devs, before, events, after, tick))
    ensures Settled(Iterate(h, cfg, devs, before, events, after, tick))
  {
    DoAllInStep(Opened(h, cfg), Opened(ref, Eager(cfg)), cfg, Plan(Republishes(h), devs, before, events, after, tick));
  }

  // ---- what a state tick leaves ------------------------------------------------

  /** The cache holds every text the entry shows. */
  ghost predicate Holds(h: Hub, fmt: Format, d: Dev, fields: seq<Field>) {
    forall field :: field in fields && Shown(fmt, d.entry, field).Some? ==>
      field in RecordOf(h, d.slug) && RecordOf(h, d.slug)[field] == Shown(fmt, d.entry, field).value
  }

  lemma {:induction false} PutFieldsHolds(h: Hub, cfg: Cfg, d: Dev, fields: seq<Field>, force: bool)
    ensures Holds(PutFields(h, cfg, d.slug, d.entry, fields, force), cfg.fmt, d, fields)
  {
    if fields != [] {
      PutFieldsHolds(h, cfg, d, fields[..|fields| - 1], force);
      assert fields == fields[..|fields| - 1] + [fields[|fields| - 1]];
    }
  }

  lemma {:induction false} PutFieldsLeaves(h: Hub, cfg: Cfg, slug: Slug, e: Entry, fields: seq<Field>,
        force: bool, other: Slug)
    requires other != slug
    ensures RecordOf(PutFields(h, cfg, slug, e, fields, force), other) == RecordOf(h, other)
    ensures other in PutFields(h, cfg, slug, e, fields, force).lastPub <==> other in h.lastPub
  {
    if fields != [] {
      PutFieldsLeaves(h, cfg, slug, e, fields[..|fields| - 1], force, other);
    }
  }

  lemma DisplayedHolds(h: Hub, cfg: Cfg, job: Job, d: Dev)
    requires if job.dev == d then job.show != Nothing
             else job.dev.slug != d.slug && Holds(h, cfg.fmt, d, StateFields(d.entry))
    ensures Holds(Displayed(h, cfg, job), cfg.fmt, d, StateFields(d.entry))
  {
    var slug, e := job.dev.slug, job.dev.entry;
    if job.dev == d {
      PutFieldsHolds(Touch(h, slug), cfg, d, StateFields(e), job.show == Everything);
    } else {
      PutFieldsLeaves(Touch(h, slug), cfg, slug, e, StateFields(e), job.show == Everything, d.slug);
    }
  }

  lemma {:induction false} TickHolds(h: Hub, cfg: Cfg, devs: seq<Dev>, slots: map<Slug, A.Slot>, k: nat, n: nat)
    requires DistinctSlugs(devs) && k < n <= |devs| && IsUp(slots, devs[k].slug)
    ensures Holds(DoAll(h, cfg, TickJobs(devs, slots)[..n]), cfg.fmt, devs[k], StateFields(devs[k].entry))
  {
    var jobs := TickJobs(devs, slots)[..n];
    assert jobs[..n - 1] == TickJobs(devs, slots)[..n - 1];
    if k < n - 1 {
      TickHolds(h, cfg, devs, slots, k, n - 1);
    }
    DisplayedHolds(DoAll(h, cfg, jobs[..n - 1]), cfg, jobs[n - 1], devs[k]);
  }

  /** After a state tick that ends connected with nothing pending, the broker retains for every device
      that is up exactly what publishing its whole entry unconditionally would leave there. */
  lemma TickShowsEverything(h: Hub, cfg: Cfg, devs: seq<Dev>, before: map<Slug, A.Slot>,
                            events: seq<(Slug, A.Event)>, after: map<Slug, A.Slot>, d: Dev, field: Field)
    requires EventsKnown(events, devs) && DistinctSlugs(devs) && Agree(h)
    requires d in devs && IsUp(after, d.slug)
    requires field in StateFields(d.entry) && IsRetained(field) && Shown(cfg.fmt, d.entry, field).Some?
    ensures var link := Iterate(h, cfg, devs, before, events, after, true).link;
            link.up && !link.needRepublish ==>
              State(d.slug, field) in link.retained
              && link.retained[State(d.slug, field)] == Text(Shown(cfg.fmt, d.entry, field).value)
  {
    IterateAgrees(h, cfg, devs, before, events, after, true);
    var rest := (if Republishes(h) then RepublishJobs(devs, before) else []) + VtpeJobs(devs, before)
                + EventJobs(devs, events);
    var ticks := TickJobs(devs, after);
    assert Plan(Republishes(h), devs, before, events, after, true) == rest + ticks;
    DoAllConcat(Opened(h, cfg), cfg, rest, ticks);
    var k :| 0 <= k < |devs| && devs[k] == d;
    assert ticks[..|devs|] == ticks;
    TickHolds(DoAll(Opened(h, cfg), cfg, rest), cfg, devs, after, k, |devs|);
  }
}

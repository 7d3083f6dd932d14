/** Discovery before state: within a connection no state or availability topic reaches the broker
    before a discovery config that names it. */
module BridgeOrdering {
  import opened Options
  import opened Orders
  import opened Discovery
  import opened BridgeModel
  import opened BridgePublishing
  import A = Availability

  predicate Names(payload: Payload, topic: Topic) {
    payload.Entity? && (payload.stateTopic == topic || topic in payload.availability)
  }

  ghost predicate IsNamed(sent: seq<Msg>, topic: Topic) {
    exists j :: 0 <= j < |sent| && Names(sent[j].payload, topic)
  }

  /** Every state message comes after a config that names its topic. */
  ghost predicate Ordered(sent: seq<Msg>) {
    forall i :: 0 <= i < |sent| && sent[i].topic.State? ==> IsNamed(sent[..i], sent[i].topic)
  }

  ghost predicate AllNamed(sent: seq<Msg>, slug: Slug, fields: seq<Field>) {
    forall field :: field in fields ==> IsNamed(sent, State(slug, field))
  }

  const BASE_AND_AVAILABILITY: seq<Field> := BASE + [Availability]

  lemma NamedGrows(sent: seq<Msg>, more: seq<Msg>, topic: Topic)
    requires sent <= more && IsNamed(sent, topic)
    ensures IsNamed(more, topic)
  {
    var j :| 0 <= j < |sent| && Names(sent[j].payload, topic);
    assert more[j] == sent[j];
  }

  lemma AllNamedGrows(sent: seq<Msg>, more: seq<Msg>, slug: Slug, fields: seq<Field>)
    requires sent <= more && AllNamed(sent, slug, fields)
    ensures AllNamed(more, slug, fields)
  {
    forall field | field in fields ensures IsNamed(more, State(slug, field)) {
      NamedGrows(sent, more, State(slug, field));
    }
  }

  lemma OrderedExtends(sent: seq<Msg>, msg: Msg)
    requires Ordered(sent)
    requires msg.topic.State? ==> IsNamed(sent, msg.topic)
    ensures Ordered(sent + [msg])
  {
    var more := sent + [msg];
    forall i | 0 <= i < |more| && more[i].topic.State? ensures IsNamed(more[..i], more[i].topic) {
      if i < |sent| {
        assert more[..i] == sent[..i];
      } else {
        assert more[..i] == sent;
      }
    }
  }

  /** The link only loses its connection, and only adds to what it sent. */
  ghost predicate Onward(l: Link, next: Link) {
    (next.up ==> l.up) && l.sent <= next.sent && next.needRepublish == l.needRepublish
  }

  lemma OnwardTransitive(a: Link, b: Link, c: Link)
    requires Onward(a, b) && Onward(b, c)
    ensures Onward(a, c)
  {
  }

  /** What the caches promise about the present connection. */
  ghost predicate Promised(h: Hub) {
    && Ordered(h.link.sent)
    && (h.link.up ==>
          && (forall slug :: slug in h.lastPub ==> AllNamed(h.link.sent, slug, BASE_AND_AVAILABILITY))
          && (forall slug :: VtpePublished(h, slug) ==> AllNamed(h.link.sent, slug, VTPE)))
  }

  lemma PromiseGrows(h: Hub, link: Link)
    requires Promised(h) && Onward(h.link, link) && Ordered(link.sent)
    ensures Promised(h.(link := link))
  {
    forall slug | slug in h.lastPub && link.up ensures AllNamed(link.sent, slug, BASE_AND_AVAILABILITY) {
      AllNamedGrows(h.link.sent, link.sent, slug, BASE_AND_AVAILABILITY);
    }
    forall slug | VtpePublished(h, slug) && link.up ensures AllNamed(link.sent, slug, VTPE) {
      AllNamedGrows(h.link.sent, link.sent, slug, VTPE);
    }
  }

  lemma SendOrdered(l: Link, weather: nat -> Weather, topic: Topic, payload: Payload, retain: bool)
    requires NoReturns(weather) && Ordered(l.sent)
    requires topic.State? && l.up ==> IsNamed(l.sent, topic)
    ensures Ordered(Send(l, weather, topic, payload, retain).sent)
    ensures Onward(l, Send(l, weather, topic, payload, retain))
  {
    OrderedExtends(l.sent, if topic.State? && !l.up then Msg(BridgeStatus, payload) else Msg(topic, payload));
  }

  lemma {:induction false} SendAllOrdered(l: Link, weather: nat -> Weather, items: seq<Item>)
    requires NoReturns(weather) && Ordered(l.sent)
    requires forall i :: 0 <= i < |items| ==> items[i].topic.Config?
    ensures Ordered(SendAll(l, weather, items).sent)
    ensures Onward(l, SendAll(l, weather, items))
    ensures forall i, topic :: 0 <= i < |items| && SendAll(l, weather, items).up && Names(items[i].payload, topic) ==>
              IsNamed(SendAll(l, weather, items).sent, topic)
  {
    if items != [] {
      var init, last := items[..|items| - 1], items[|items| - 1];
      SendAllOrdered(l, weather, init);
      var mid := SendAll(l, weather, init);
      SendOrdered(mid, weather, last.topic, last.payload, true);
      var end := SendAll(l, weather, items);
      forall i, topic | 0 <= i < |items| && end.up && Names(items[i].payload, topic) ensures IsNamed(end.sent, topic) {
        if i < |init| {
          assert items[i] == init[i];
          NamedGrows(mid.sent, end.sent, topic);
        } else {
          assert end.sent[|mid.sent|].payload == last.payload;
        }
      }
    }
  }

  lemma PutPromised(h: Hub, cfg: Cfg, slug: Slug, field: Field, text: string, force: bool)
    requires NoReturns(cfg.weather) && Promised(h) && slug in h.lastPub
    requires h.link.up ==> IsNamed(h.link.sent, State(slug, field))
    ensures Promised(Put(h, cfg, slug, field, text, force))
    ensures Onward(h.link, Put(h, cfg, slug, field, text, force).link)
    ensures Put(h, cfg, slug, field, text, force).lastPub.Keys == h.lastPub.Keys
  {
    SendOrdered(h.link, cfg.weather, State(slug, field), Text(text), IsRetained(field));
    var next := Put(h, cfg, slug, field, text, force);
    PromiseGrows(h, next.link);
  }

  lemma {:induction false} PutFieldsPromised(h: Hub, cfg: Cfg, slug: Slug, e: Entry, fields: seq<Field>, force: bool)
    requires NoReturns(cfg.weather) && Promised(h) && slug in h.lastPub
    requires h.link.up ==> AllNamed(h.link.sent, slug, fields)
    ensures Promised(PutFields(h, cfg, slug, e, fields, force))
    ensures Onward(h.link, PutFields(h, cfg, slug, e, fields, force).link)
    ensures PutFields(h, cfg, slug, e, fields, force).lastPub.Keys == h.lastPub.Keys
    ensures PutFields(h, cfg, slug, e, fields, force).vtpePub == h.vtpePub
  {
    if fields != [] {
      var init, field := fields[..|fields| - 1], fields[|fields| - 1];
      PutFieldsPromised(h, cfg, slug, e, init, force);
      var mid := PutFields(h, cfg, slug, e, init, force);
      if Shown(cfg.fmt, e, field).Some? {
        if mid.link.up {
          assert IsNamed(h.link.sent, State(slug, field));
          NamedGrows(h.link.sent, mid.link.sent, State(slug, field));
        }
        PutPromised(mid, cfg, slug, field, Shown(cfg.fmt, e, field).value, force);
      }
    }
  }

  /** After publishing its configs, everything the device may publish has been named. */
  lemma PublishDiscoveryNames(h: Hub, cfg: Cfg, d: Dev)
    requires NoReturns(cfg.weather) && Promised(h)
    ensures var next := PublishDiscovery(h, cfg, d.slug, d.mac, d.entry.vtpeSeen);
            && Promised(next) && Onward(h.link, next.link)
            && (next.link.up ==> AllNamed(next.link.sent, d.slug, BASE_AND_AVAILABILITY))
            && (next.link.up && d.entry.vtpeSeen ==> AllNamed(next.link.sent, d.slug, VTPE))
  {
    var vtpe := d.entry.vtpeSeen;
    var fields := DeclaredFields(vtpe);
    var items := Declarations(d.slug, d.mac, vtpe, fields);
    SendAllOrdered(h.link, cfg.weather, items);
    DeclaredExactlyWhatIsPublished(vtpe);
    var link := SendAll(h.link, cfg.weather, items);
    forall field | link.up && (field in BASE_AND_AVAILABILITY || (vtpe && field in VTPE))
      ensures IsNamed(link.sent, State(d.slug, field))
    {
      var i := 0;
      if field != Availability {
        i :| 0 <= i < |fields| && fields[i] == field;
      }
      assert Names(items[i].payload, State(d.slug, field));
    }
    PromiseGrows(h, link);
  }

  /** A job that publishes something about a device either declares it or finds it declared. */
  ghost predicate Prepared(h: Hub, job: Job) {
    var d := job.dev;
    && (job.announce.Some? || job.show != Nothing ==> Declares(h, job) || d.slug in h.lastPub)
    && (job.show != Nothing && d.entry.vtpeSeen && h.link.up ==> Declares(h, job) || VtpePublished(h, d.slug))
  }

  ghost predicate Skips(h: Hub, job: Job) {
    job.declare == IfVtpeMissing && !Declares(h, job)
  }

  lemma TouchPromised(h: Hub, slug: Slug)
    requires Promised(h) && (h.link.up ==> AllNamed(h.link.sent, slug, BASE_AND_AVAILABILITY))
    ensures Promised(Touch(h, slug))
  {
  }

  lemma AnnouncedPromised(h: Hub, cfg: Cfg, job: Job)
    requires NoReturns(cfg.weather) && Promised(h) && job.announce.Some?
    requires h.link.up ==> AllNamed(h.link.sent, job.dev.slug, BASE_AND_AVAILABILITY)
    ensures var next := Announced(h, cfg, job);
            && Promised(next) && Onward(h.link, next.link)
            && next.lastPub.Keys == h.lastPub.Keys + {job.dev.slug} && next.vtpePub == h.vtpePub
  {
    var slug := job.dev.slug;
    TouchPromised(h, slug);
    assert Availability in BASE_AND_AVAILABILITY;
    PutPromised(Touch(h, slug), cfg, slug, Availability, OnlineText(job.announce.value), false);
  }

  lemma DisplayedPromised(h: Hub, cfg: Cfg, job: Job)
    requires NoReturns(cfg.weather) && Promised(h) && job.show != Nothing
    requires h.link.up ==> AllNamed(h.link.sent, job.dev.slug, BASE_AND_AVAILABILITY)
    requires h.link.up && job.dev.entry.vtpeSeen ==> AllNamed(h.link.sent, job.dev.slug, VTPE)
    ensures var next := Displayed(h, cfg, job);
            && Promised(next) && Onward(h.link, next.link)
            && next.lastPub.Keys == h.lastPub.Keys + {job.dev.slug} && next.vtpePub == h.vtpePub
  {
    var d := job.dev;
    TouchPromised(h, d.slug);
    if h.link.up {
      forall field | field in StateFields(d.entry) ensures IsNamed(h.link.sent, State(d.slug, field)) {
        assert field in BASE_AND_AVAILABILITY || field in VTPE;
      }
    }
    PutFieldsPromised(Touch(h, d.slug), cfg, d.slug, d.entry, StateFields(d.entry), job.show == Everything);
  }

  lemma DeclaredPromised(h: Hub, cfg: Cfg, job: Job)
    requires NoReturns(cfg.weather) && Promised(h) && Prepared(h, job) && !Skips(h, job)
    ensures var next := Declared(h, cfg, job);
            && Promised(next) && Onward(h.link, next.link) && next.lastPub == h.lastPub
            && (job.announce.Some? || job.show != Nothing ==>
                  next.link.up ==> AllNamed(next.link.sent, job.dev.slug, BASE_AND_AVAILABILITY))
            && (job.show != Nothing && job.dev.entry.vtpeSeen ==>
                  next.link.up ==> AllNamed(next.link.sent, job.dev.slug, VTPE))
            && next.vtpePub == if Declares(h, job) then h.vtpePub[job.dev.slug := job.dev.entry.vtpeSeen] else h.vtpePub
  {
    if Declares(h, job) {
      PublishDiscoveryNames(h, cfg, job.dev);
    }
  }

  lemma DoPromised(h: Hub, cfg: Cfg, job: Job)
    requires NoReturns(cfg.weather) && Promised(h) && (Prepared(h, job) || Skips(h, job))
    ensures var next := Do(h, cfg, job);
            && Promised(next) && Onward(h.link, next.link)
            && next.lastPub.Keys == h.lastPub.Keys +
                 (if !Skips(h, job) && (job.announce.Some? || job.show != Nothing) then {job.dev.slug} else {})
            && next.vtpePub == if Declares(h, job) then h.vtpePub[job.dev.slug := job.dev.entry.vtpeSeen] else h.vtpePub
  {
    if !Skips(h, job) {
      DeclaredPromised(h, cfg, job);
      var h1 := Declared(h, cfg, job);
      var slug := job.dev.slug;
      if job.announce.Some? {
        AnnouncedPromised(h1, cfg, job);
      }
      var h2 := Announced(h1, cfg, job);
      if job.show != Nothing {
        if h2.link.up {
          AllNamedGrows(h1.link.sent, h2.link.sent, slug, BASE_AND_AVAILABILITY);
          if job.dev.entry.vtpeSeen {
            AllNamedGrows(h1.link.sent, h2.link.sent, slug, VTPE);
          }
        }
        DisplayedPromised(h2, cfg, job);
      }
    }
  }

  // ---- pass by pass -------------------------------------------------------------

  /** From the pass over undeclared v/t/p/e devices on, their extra topics have been named. */
  ghost predicate VtpeReady(h: Hub, devs: seq<Dev>) {
    h.link.up ==> forall d :: d in devs && d.entry.vtpeSeen ==> VtpePublished(h, d.slug)
  }

  ghost predicate AllCached(h: Hub, slugs: set<Slug>) {
    slugs <= h.lastPub.Keys
  }

  lemma SlugsGrow(devs: seq<Dev>, n: nat)
    requires 0 < n <= |devs|
    ensures Slugs(devs[..n]) == Slugs(devs[..n - 1]) + {devs[n - 1].slug}
  {
    assert devs[..n] == devs[..n - 1] + [devs[n - 1]];
  }

  lemma RepublishStep(h: Hub, cfg: Cfg, d: Dev, slots: map<Slug, A.Slot>)
    requires NoReturns(cfg.weather) && Promised(h)
    ensures var next := Do(h, cfg, RepublishJob(d, slots));
            Promised(next) && Onward(h.link, next.link) && next.lastPub.Keys == h.lastPub.Keys + {d.slug}
  {
    DoPromised(h, cfg, RepublishJob(d, slots));
  }

  lemma {:induction false} RepublishPass(h: Hub, cfg: Cfg, devs: seq<Dev>, slots: map<Slug, A.Slot>, n: nat)
    requires NoReturns(cfg.weather) && Promised(h) && n <= |devs|
    ensures var next := DoAll(h, cfg, RepublishJobs(devs, slots)[..n]);
            Promised(next) && Onward(h.link, next.link) && AllCached(next, Slugs(devs[..n]))
  {
    hide Do;
    if n > 0 {
      var jobs := RepublishJobs(devs, slots)[..n];
      assert jobs[..n - 1] == RepublishJobs(devs, slots)[..n - 1];
      RepublishPass(h, cfg, devs, slots, n - 1);
      var mid := DoAll(h, cfg, jobs[..n - 1]);
      RepublishStep(mid, cfg, devs[n - 1], slots);
      OnwardTransitive(h.link, mid.link, DoAll(h, cfg, jobs).link);
      SlugsGrow(devs, n);
    }
  }

  lemma VtpeStep(h: Hub, cfg: Cfg, d: Dev, slots: map<Slug, A.Slot>)
    requires NoReturns(cfg.weather) && Promised(h)
    ensures var next := Do(h, cfg, VtpeJob(d, slots));
            && Promised(next) && Onward(h.link, next.link) && h.lastPub.Keys <= next.lastPub.Keys
            && (next.link.up && d.entry.vtpeSeen ==> VtpePublished(next, d.slug))
            && (forall slug :: slug != d.slug && VtpePublished(h, slug) ==> VtpePublished(next, slug))
  {
    DoPromised(h, cfg, VtpeJob(d, slots));
  }

  lemma {:induction false} VtpePass(h: Hub, cfg: Cfg, devs: seq<Dev>, slots: map<Slug, A.Slot>, n: nat)
    requires NoReturns(cfg.weather) && Promised(h) && DistinctSlugs(devs) && n <= |devs|
    ensures var next := DoAll(h, cfg, VtpeJobs(devs, slots)[..n]);
            && Promised(next) && Onward(h.link, next.link) && AllCached(next, h.lastPub.Keys)
            && VtpeReady(next, devs[..n])
  {
    hide Do, Promised;
    if n > 0 {
      var jobs := VtpeJobs(devs, slots)[..n];
      assert jobs[..n - 1] == VtpeJobs(devs, slots)[..n - 1];
      VtpePass(h, cfg, devs, slots, n - 1);
      var mid := DoAll(h, cfg, jobs[..n - 1]);
      VtpeStep(mid, cfg, devs[n - 1], slots);
      var next := DoAll(h, cfg, jobs);
      OnwardTransitive(h.link, mid.link, next.link);
      forall d | next.link.up && d in devs[..n] && d.entry.vtpeSeen ensures VtpePublished(next, d.slug) {
        var k :| 0 <= k < n && devs[k] == d;
        if k < n - 1 {
          assert devs[..n - 1][k] == d;
        }
      }
    }
  }

  /** A later job leaves the extra topics of every device named. */
  lemma DoKeepsReady(h: Hub, cfg: Cfg, job: Job, devs: seq<Dev>)
    requires NoReturns(cfg.weather) && Promised(h) && DistinctSlugs(devs) && job.dev in devs
    requires VtpeReady(h, devs)
    requires job.announce.Some? || job.show != Nothing ==> Declares(h, job) || job.dev.slug in h.lastPub
    ensures var next := Do(h, cfg, job);
            && Promised(next) && Onward(h.link, next.link) && VtpeReady(next, devs)
            && next.lastPub.Keys == h.lastPub.Keys +
                 (if !Skips(h, job) && (job.announce.Some? || job.show != Nothing) then {job.dev.slug} else {})
  {
    hide Do, Promised;
    DoPromised(h, cfg, job);
  }

  lemma EventStep(h: Hub, cfg: Cfg, d: Dev, event: A.Event, devs: seq<Dev>)
    requires NoReturns(cfg.weather) && Promised(h) && DistinctSlugs(devs) && VtpeReady(h, devs) && d in devs
    requires event == A.Offline ==> d.slug in h.lastPub
    ensures var next := Do(h, cfg, EventJob(d, event));
            && Promised(next) && Onward(h.link, next.link) && VtpeReady(next, devs)
            && next.lastPub.Keys == h.lastPub.Keys + {d.slug}
  {
    DoKeepsReady(h, cfg, EventJob(d, event), devs);
  }

  lemma {:induction false} EventPass(h: Hub, cfg: Cfg, devs: seq<Dev>, events: seq<(Slug, A.Event)>, n: nat)
    requires NoReturns(cfg.weather) && Promised(h) && DistinctSlugs(devs) && VtpeReady(h, devs)
    requires EventsKnown(events, devs) && n <= |events|
    requires forall i :: 0 <= i < |events| && events[i].1 == A.Offline ==> events[i].0 in h.lastPub
    ensures var next := DoAll(h, cfg, EventJobs(devs, events)[..n]);
            && Promised(next) && Onward(h.link, next.link) && VtpeReady(next, devs)
            && AllCached(next, h.lastPub.Keys)
            && forall i :: 0 <= i < n ==> events[i].0 in next.lastPub
  {
    hide Do;
    if n > 0 {
      var jobs := EventJobs(devs, events)[..n];
      assert jobs[..n - 1] == EventJobs(devs, events)[..n - 1];
      EventPass(h, cfg, devs, events, n - 1);
      var mid := DoAll(h, cfg, jobs[..n - 1]);
      EventStep(mid, cfg, DevOf(devs, events[n - 1].0), events[n - 1].1, devs);
      OnwardTransitive(h.link, mid.link, DoAll(h, cfg, jobs).link);
    }
  }

  lemma TickStep(h: Hub, cfg: Cfg, d: Dev, slots: map<Slug, A.Slot>, devs: seq<Dev>)
    requires NoReturns(cfg.weather) && Promised(h) && DistinctSlugs(devs) && VtpeReady(h, devs) && d in devs
    requires IsUp(slots, d.slug) ==> d.slug in h.lastPub
    ensures var next := Do(h, cfg, TickJob(d, slots));
            && Promised(next) && Onward(h.link, next.link) && VtpeReady(next, devs)
            && next.lastPub.Keys == h.lastPub.Keys
  {
    DoKeepsReady(h, cfg, TickJob(d, slots), devs);
  }

  lemma {:induction false} TickPass(h: Hub, cfg: Cfg, devs: seq<Dev>, slots: map<Slug, A.Slot>, n: nat)
    requires NoReturns(cfg.weather) && Promised(h) && DistinctSlugs(devs) && VtpeReady(h, devs)
    requires n <= |devs|
    requires forall d :: d in devs && IsUp(slots, d.slug) ==> d.slug in h.lastPub
    ensures var next := DoAll(h, cfg, TickJobs(devs, slots)[..n]);
            Promised(next) && Onward(h.link, next.link) && VtpeReady(next, devs) && next.lastPub.Keys == h.lastPub.Keys
  {
    if n > 0 {
      var jobs := TickJobs(devs, slots)[..n];
      assert jobs[..n - 1] == TickJobs(devs, slots)[..n - 1];
      TickPass(h, cfg, devs, slots, n - 1);
      var mid := DoAll(h, cfg, jobs[..n - 1]);
      TickStep(mid, cfg, devs[n - 1], slots, devs);
      OnwardTransitive(h.link, mid.link, DoAll(h, cfg, jobs).link);
    }
  }

  // ---- a whole iteration --------------------------------------------------------

  /** Between iterations the promise is only made for a link with no republish pending. */
  ghost predicate PromisedAtRest(h: Hub) {
    Ordered(h.link.sent) && (h.link.up && !h.link.needRepublish ==> Promised(h))
  }

  /** Every slug that is up or in grace is cached: it was announced, or a republish has it. */
  ghost predicate PresentCached(h: Hub, slots: map<Slug, A.Slot>) {
    forall slug :: IsPresent(slots, slug) ==> slug in h.lastPub
  }

  /** The devices of this iteration include every slug that is up or in grace. */
  ghost predicate PresentSeen(devs: seq<Dev>, slots: map<Slug, A.Slot>) {
    forall slug :: IsPresent(slots, slug) ==> slug in Slugs(devs)
  }

  /** A republish empties the caches, so it has to see the devices; any other iteration relies on them. */
  ghost predicate PresentKnown(h: Hub, devs: seq<Dev>, slots: map<Slug, A.Slot>) {
    if Republishes(h) then PresentSeen(devs, slots) else PresentCached(h, slots)
  }

  lemma OpenedPromised(h: Hub, cfg: Cfg)
    requires NoReturns(cfg.weather) && PromisedAtRest(h)
    ensures Promised(Opened(h, cfg)) && Settled(Opened(h, cfg))
  {
    if Republishes(h) {
      SendOrdered(h.link.(needRepublish := false), cfg.weather, BridgeStatus, Text("online"), true);
    }
  }

  lemma OpeningPasses(h: Hub, cfg: Cfg, devs: seq<Dev>, before: map<Slug, A.Slot>)
    requires NoReturns(cfg.weather) && PromisedAtRest(h)
    requires DistinctSlugs(devs) && PresentKnown(h, devs, before)
    ensures var jobs := (if Republishes(h) then RepublishJobs(devs, before) else []) + VtpeJobs(devs, before);
            var next := DoAll(Opened(h, cfg), cfg, jobs);
            && Promised(next) && Settled(next) && VtpeReady(next, devs) && PresentCached(next, before)
  {
    OpenedPromised(h, cfg);
    var start := Opened(h, cfg);
    var first := if Republishes(h) then RepublishJobs(devs, before) else [];
    var second := VtpeJobs(devs, before);
    DoAllConcat(start, cfg, first, second);
    if Republishes(h) {
      assert first[..|devs|] == first && devs[..|devs|] == devs;
      RepublishPass(start, cfg, devs, before, |devs|);
    }
    assert second[..|devs|] == second && devs[..|devs|] == devs;
    VtpePass(DoAll(start, cfg, first), cfg, devs, before, |devs|);
  }

  /** The events an iteration handles are exactly what the slots of the known slugs emit. */
  ghost predicate EventsOf(events: seq<(Slug, A.Event)>, devs: seq<Dev>, live: set<Slug>,
                           before: map<Slug, A.Slot>, after: map<Slug, A.Slot>, now: real, grace: real) {
    && EventsKnown(events, devs)
    && after == A.Observed(before, live, Slugs(devs), now, grace)
    && (exists order :: Enumerates(order, Slugs(devs)) && events == A.Events(before, live, order, now, grace))
  }

  lemma EventsMatch(events: seq<(Slug, A.Event)>, devs: seq<Dev>, live: set<Slug>, before: map<Slug, A.Slot>,
                    after: map<Slug, A.Slot>, now: real, grace: real)
    requires EventsOf(events, devs, live, before, after, now, grace)
    ensures forall e :: e in events <==>
              e.0 in Slugs(devs) && A.Emitted(A.SlotOf(before, e.0), e.0 in live, now, grace) == Some(e.1)
    ensures forall i, j :: 0 <= i < j < |events| ==> events[i].0 != events[j].0
  {
    var order :| Enumerates(order, Slugs(devs)) && events == A.Events(before, live, order, now, grace);
    A.EventsPerSlug(before, live, order, now, grace);
  }

  /** An iteration in which the connection may drop anywhere, but not come back, keeps discovery
      before state, and caches every slug that is then up or in grace. */
  lemma IteratePromised(h: Hub, cfg: Cfg, devs: seq<Dev>, live: set<Slug>, before: map<Slug, A.Slot>,
                        events: seq<(Slug, A.Event)>, after: map<Slug, A.Slot>, now: real, grace: real, tick: bool)
    requires NoReturns(cfg.weather) && PromisedAtRest(h)
    requires DistinctSlugs(devs) && PresentKnown(h, devs, before)
    requires EventsOf(events, devs, live, before, after, now, grace)
    ensures var next := Iterate(h, cfg, devs, before, events, after, tick);
            PromisedAtRest(next) && PresentCached(next, after) && Settled(next)
  {
    hide Do, DoAll;
    EventsMatch(events, devs, live, before, after, now, grace);
    OpeningPasses(h, cfg, devs, before);
    var opening := (if Republishes(h) then RepublishJobs(devs, before) else []) + VtpeJobs(devs, before);
    var eventJobs := EventJobs(devs, events);
    var ticks := if tick then TickJobs(devs, after) else [];
    var start := Opened(h, cfg);
    assert Plan(Republishes(h), devs, before, events, after, tick) == (opening + eventJobs) + ticks;
    DoAllConcat(start, cfg, opening + eventJobs, ticks);
    DoAllConcat(start, cfg, opening, eventJobs);
    var h1 := DoAll(start, cfg, opening);
    assert eventJobs[..|events|] == eventJobs;
    forall i | 0 <= i < |events| && events[i].1 == A.Offline ensures events[i].0 in h1.lastPub {
      assert events[i] in events;
    }
    EventPass(h1, cfg, devs, events, |events|);
    var h2 := DoAll(h1, cfg, eventJobs);
    forall slug | IsPresent(after, slug) ensures slug in h2.lastPub {
      if !IsPresent(before, slug) {
        assert (slug, if A.PhaseOf(before, slug) == A.Init then A.Online else A.OnlineRepublish) in events;
      }
    }
    if tick {
      assert ticks[..|devs|] == ticks;
      TickPass(h2, cfg, devs, after, |devs|);
    } else {
      DoNone(h2, cfg);
    }
  }

  // ---- why the connection must not come back in the middle ----------------------

  /** The connection returns just after the last discovery config was dropped. */
  function ReturnsAfterDiscovery(): nat -> Weather {
    n => if n == 10 then Returns else Calm
  }

  const LATECOMER := Dev("020000000003", "c", "020000000003", Entry(map[], map[], false, None, map[], map[]))

  const OFFLINE_HUB := Hub(map[], map[], Link(false, false, map[], [], 0))

  /** First seen live while the connection is down: the configs are dropped, the connection comes back,
      and the availability is the first thing the broker hears of the device. */
  lemma LatecomerJob(fmt: Format)
    ensures var cfg := Cfg(fmt, ReturnsAfterDiscovery(), false);
            Do(OFFLINE_HUB, cfg, EventJob(LATECOMER, A.Online)).link.sent
            == [Msg(State(LATECOMER.slug, Availability), Text("online"))]
  {
    var cfg := Cfg(fmt, ReturnsAfterDiscovery(), false);
    var d, job := LATECOMER, EventJob(LATECOMER, A.Online);
    DroppedDiscovery(OFFLINE_HUB.link, cfg.weather, Declarations(d.slug, d.mac, false, DeclaredFields(false)));
    var h1 := Declared(OFFLINE_HUB, cfg, job);
    assert h1.link == OFFLINE_HUB.link.(clock := 10);
    var h2 := Announced(h1, cfg, job);
    assert h2.link.sent == [Msg(State(d.slug, Availability), Text("online"))];
    NothingShown(Touch(h2, d.slug), cfg, d.slug, d.entry, StateFields(d.entry), true);
  }

  lemma LatecomerIteration(fmt: Format, after: map<Slug, A.Slot>)
    ensures var cfg, events := Cfg(fmt, ReturnsAfterDiscovery(), false), [(LATECOMER.slug, A.Online)];
            && EventsKnown(events, [LATECOMER])
            && Iterate(OFFLINE_HUB, cfg, [LATECOMER], map[], events, after, false).link.sent
               == [Msg(State(LATECOMER.slug, Availability), Text("online"))]
  {
    hide Displayed, Announced, Declared;
    var cfg, devs, events := Cfg(fmt, ReturnsAfterDiscovery(), false), [LATECOMER], [(LATECOMER.slug, A.Online)];
    assert LATECOMER in devs;
    var vtpeJob, eventJob := VtpeJob(LATECOMER, map[]), EventJob(LATECOMER, A.Online);
    assert Plan(false, devs, map[], events, after, false) == [vtpeJob] + [eventJob];
    DoAllConcat(OFFLINE_HUB, cfg, [vtpeJob], [eventJob]);
    DoOne(OFFLINE_HUB, cfg, vtpeJob);
    DoOne(OFFLINE_HUB, cfg, eventJob);
    LatecomerJob(fmt);
  }

  /** So the hypothesis is needed: from a bridge at rest, one iteration in which the connection returns
      at the wrong moment delivers a topic that nothing has declared. */
  lemma ReturnInMidIteration(fmt: Format)
    ensures exists events, after, live, now, grace ::
              && EventsOf(events, [LATECOMER], live, map[], after, now, grace)
              && PromisedAtRest(OFFLINE_HUB) && PresentKnown(OFFLINE_HUB, [LATECOMER], map[])
              && DistinctSlugs([LATECOMER])
              && !Ordered(Iterate(OFFLINE_HUB, Cfg(fmt, ReturnsAfterDiscovery(), false), [LATECOMER], map[],
                                  events, after, false).link.sent)
  {
    hide Iterate;
    var slug, devs, live := LATECOMER.slug, [LATECOMER], {LATECOMER.slug};
    assert LATECOMER in devs;
    assert Slugs(devs) == {slug};
    var events := [(slug, A.Online)];
    var after := A.Observed(map[], live, Slugs(devs), 1.0, 45.0);
    assert Enumerates([slug], Slugs(devs));
    assert [slug][..0] == [];
    assert A.Events(map[], live, [slug], 1.0, 45.0) == events;
    assert EventsOf(events, devs, live, map[], after, 1.0, 45.0);
    LatecomerIteration(fmt, after);
    var sent := [Msg(State(slug, Availability), Text("online"))];
    assert !IsNamed(sent[..0], sent[0].topic);
    assert !Ordered(sent);
  }

  lemma {:induction false} DroppedDiscovery(l: Link, weather: nat -> Weather, items: seq<Item>)
    requires !l.up && forall n :: l.clock <= n < l.clock + |items| ==> weather(n) == Calm
    ensures SendAll(l, weather, items) == l.(clock := l.clock + |items|)
  {
    if items != [] {
      DroppedDiscovery(l, weather, items[..|items| - 1]);
    }
  }
}

/** What the availability announced to Home Assistant says about the availability machine. */
module BridgeAvailability {
  import opened Options
  import opened Discovery
  import opened BridgeModel
  import opened BridgeOrdering
  import A = Availability

  function CachedAvailability(h: Hub, slug: Slug): Option<string> {
    if Availability in RecordOf(h, slug) then Some(RecordOf(h, slug)[Availability]) else None
  }

  /** The last availability a list of jobs announces for a slug. */
  function LastAnnounced(jobs: seq<Job>, slug: Slug): Option<bool> {
    if jobs == [] then None
    else
      var last := jobs[|jobs| - 1];
      if last.dev.slug == slug && last.announce.Some? then last.announce
      else LastAnnounced(jobs[..|jobs| - 1], slug)
  }

  lemma {:induction false} PutFieldsKeepAvailability(h: Hub, cfg: Cfg, slug: Slug, e: Entry,
        fields: seq<Field>, force: bool, s: Slug)
    requires Availability !in fields
    ensures CachedAvailability(PutFields(h, cfg, slug, e, fields, force), s) == CachedAvailability(h, s)
  {
    if fields != [] {
      PutFieldsKeepAvailability(h, cfg, slug, e, fields[..|fields| - 1], force, s);
      assert fields[|fields| - 1] in fields;
    }
  }

  /** Only an announcement changes the cached availability. */
  lemma DoAvailability(h: Hub, cfg: Cfg, job: Job, slug: Slug)
    requires job.declare == IfVtpeMissing ==> job.announce == None
    ensures CachedAvailability(Do(h, cfg, job), slug)
         == if job.dev.slug == slug && job.announce.Some? then Some(OnlineText(job.announce.value))
            else CachedAvailability(h, slug)
  {
    hide PublishDiscovery;
    var d := job.dev;
    var h1 := Declared(h, cfg, job);
    DeclaredKeepsAvailability(h, cfg, job, slug);
    var h2 := Announced(h1, cfg, job);
    assert CachedAvailability(h2, slug) == if d.slug == slug && job.announce.Some? then Some(OnlineText(job.announce.value))
                                           else CachedAvailability(h1, slug);
    PutFieldsKeepAvailability(Touch(h2, d.slug), cfg, d.slug, d.entry, StateFields(d.entry), job.show == Everything, slug);
  }

  lemma DeclaredKeepsAvailability(h: Hub, cfg: Cfg, job: Job, slug: Slug)
    ensures CachedAvailability(Declared(h, cfg, job), slug) == CachedAvailability(h, slug)
  {
  }

  lemma {:induction false} DoAllAvailability(h: Hub, cfg: Cfg, jobs: seq<Job>, slug: Slug)
    requires forall i :: 0 <= i < |jobs| && jobs[i].declare == IfVtpeMissing ==> jobs[i].announce == None
    ensures CachedAvailability(DoAll(h, cfg, jobs), slug)
         == match LastAnnounced(jobs, slug)
            case Some(online) => Some(OnlineText(online))
            case None => CachedAvailability(h, slug)
  {
    if jobs != [] {
      DoAllAvailability(h, cfg, jobs[..|jobs| - 1], slug);
      DoAvailability(DoAll(h, cfg, jobs[..|jobs| - 1]), cfg, jobs[|jobs| - 1], slug);
    }
  }

  lemma {:induction false} LastAnnouncedConcat(a: seq<Job>, b: seq<Job>, slug: Slug)
    ensures LastAnnounced(a + b, slug)
         == if LastAnnounced(b, slug).Some? then LastAnnounced(b, slug) else LastAnnounced(a, slug)
  {
    if b == [] {
      assert a + b == a;
    } else {
      assert (a + b)[..|a + b| - 1] == a + b[..|b| - 1];
      LastAnnouncedConcat(a, b[..|b| - 1], slug);
    }
  }

  /** If only one of the jobs announces a slug, that one is the last. */
  lemma {:induction false} OnlyAnnouncement(jobs: seq<Job>, i: nat, slug: Slug)
    requires i < |jobs| && jobs[i].dev.slug == slug && jobs[i].announce.Some?
    requires forall k :: 0 <= k < |jobs| && k != i && jobs[k].announce.Some? ==> jobs[k].dev.slug != slug
    ensures LastAnnounced(jobs, slug) == jobs[i].announce
  {
    if i < |jobs| - 1 {
      OnlyAnnouncement(jobs[..|jobs| - 1], i, slug);
    }
  }

  lemma {:induction false} NoAnnouncement(jobs: seq<Job>, slug: Slug)
    requires forall k :: 0 <= k < |jobs| && jobs[k].announce.Some? ==> jobs[k].dev.slug != slug
    ensures LastAnnounced(jobs, slug) == None
  {
    if jobs != [] {
      NoAnnouncement(jobs[..|jobs| - 1], slug);
    }
  }

  // ---- the announced state -------------------------------------------------------

  function EventSlugs(events: seq<(Slug, A.Event)>): set<Slug> {
    set e | e in events :: e.0
  }

  function InGrace(devs: seq<Dev>, slots: map<Slug, A.Slot>): set<Slug> {
    set d | d in devs && A.PhaseOf(slots, d.slug) == A.Grace :: d.slug
  }

  /** The slugs whose latest republish found them in grace, with no event since. A function of the
      history alone: which iterations republished, the phases then, and the events. */
  function NextMasked(masked: set<Slug>, republished: bool, devs: seq<Dev>, before: map<Slug, A.Slot>,
                      events: seq<(Slug, A.Event)>): set<Slug> {
    (if republished then InGrace(devs, before) else masked) - EventSlugs(events)
  }

  /** Whatever availability is cached, it is "online" exactly for a slug that is up or in grace and not masked. */
  ghost predicate Truthful(h: Hub, slots: map<Slug, A.Slot>, masked: set<Slug>) {
    forall slug :: CachedAvailability(h, slug).Some? ==>
      CachedAvailability(h, slug).value == OnlineText(IsPresent(slots, slug) && slug !in masked)
  }

  lemma RepublishAnnounces(devs: seq<Dev>, slots: map<Slug, A.Slot>, slug: Slug)
    requires DistinctSlugs(devs)
    ensures LastAnnounced(RepublishJobs(devs, slots), slug)
         == if slug in Slugs(devs) then Some(IsUp(slots, slug)) else None
  {
    var jobs := RepublishJobs(devs, slots);
    if slug in Slugs(devs) {
      var d := DevOf(devs, slug);
      var i :| 0 <= i < |devs| && devs[i] == d;
      OnlyAnnouncement(jobs, i, slug);
    } else {
      forall k | 0 <= k < |jobs| ensures jobs[k].dev.slug != slug {
        assert devs[k] in devs;
      }
      NoAnnouncement(jobs, slug);
    }
  }

  lemma EventsAnnounce(devs: seq<Dev>, events: seq<(Slug, A.Event)>, slug: Slug)
    requires EventsKnown(events, devs)
    requires forall i, j :: 0 <= i < j < |events| ==> events[i].0 != events[j].0
    ensures slug !in EventSlugs(events) ==> LastAnnounced(EventJobs(devs, events), slug) == None
    ensures forall event :: (slug, event) in events ==>
              LastAnnounced(EventJobs(devs, events), slug) == Some(event != A.Offline)
  {
    var jobs := EventJobs(devs, events);
    if slug !in EventSlugs(events) {
      forall k | 0 <= k < |jobs| ensures jobs[k].dev.slug != slug {
        assert events[k] in events;
      }
      NoAnnouncement(jobs, slug);
    }
    forall event | (slug, event) in events ensures LastAnnounced(jobs, slug) == Some(event != A.Offline) {
      var i :| 0 <= i < |events| && events[i] == (slug, event);
      OnlyAnnouncement(jobs, i, slug);
    }
  }

  /** Neither the v/t/p/e pass nor a state tick announces anything: the events do, else the republish. */
  lemma PlanAnnounces(republish: bool, devs: seq<Dev>, before: map<Slug, A.Slot>, events: seq<(Slug, A.Event)>,
                      after: map<Slug, A.Slot>, tick: bool, slug: Slug)
    requires EventsKnown(events, devs)
    ensures var byEvents := LastAnnounced(EventJobs(devs, events), slug);
            LastAnnounced(Plan(republish, devs, before, events, after, tick), slug)
            == if byEvents.Some? then byEvents
               else if republish then LastAnnounced(RepublishJobs(devs, before), slug)
               else None
  {
    var first := if republish then RepublishJobs(devs, before) else [];
    var second, third := VtpeJobs(devs, before), EventJobs(devs, events);
    var fourth := if tick then TickJobs(devs, after) else [];
    NoAnnouncement(second, slug);
    NoAnnouncement(fourth, slug);
    hide LastAnnounced;
    LastAnnouncedConcat(first + second + third, fourth, slug);
    LastAnnouncedConcat(first + second, third, slug);
    LastAnnouncedConcat(first, second, slug);
    if !republish {
      NoAnnouncement(first, slug);
    }
  }

  /** The availability a whole iteration leaves cached for a slug. */
  lemma IterationAnnounces(h: Hub, cfg: Cfg, devs: seq<Dev>, before: map<Slug, A.Slot>, events: seq<(Slug, A.Event)>,
                           after: map<Slug, A.Slot>, tick: bool, slug: Slug)
    requires EventsKnown(events, devs) && DistinctSlugs(devs)
    requires forall i, j :: 0 <= i < j < |events| ==> events[i].0 != events[j].0
    ensures var cached := CachedAvailability(Iterate(h, cfg, devs, before, events, after, tick), slug);
            && (forall event :: (slug, event) in events ==> cached == Some(OnlineText(event != A.Offline)))
            && (slug !in EventSlugs(events) ==>
                  cached == if !Republishes(h) then CachedAvailability(h, slug)
                            else if slug in Slugs(devs) then Some(OnlineText(IsUp(before, slug)))
                            else None)
  {
    var jobs := Plan(Republishes(h), devs, before, events, after, tick);
    assert Republishes(h) ==> CachedAvailability(Opened(h, cfg), slug) == None;
    assert !Republishes(h) ==> Opened(h, cfg) == h;
    assert forall i :: 0 <= i < |jobs| && jobs[i].declare == IfVtpeMissing ==> jobs[i].announce == None;
    assert DoAll(Opened(h, cfg), cfg, jobs) == Iterate(h, cfg, devs, before, events, after, tick);
    hide Plan, DoAll, LastAnnounced, Opened, Iterate, CachedAvailability, IsUp;
    DoAllAvailability(Opened(h, cfg), cfg, jobs, slug);
    PlanAnnounces(Republishes(h), devs, before, events, after, tick, slug);
    EventsAnnounce(devs, events, slug);
    RepublishAnnounces(devs, before, slug);
  }

  /** An iteration keeps the announced availability truthful, up to the mask. */
  lemma IterateTruthful(h: Hub, cfg: Cfg, devs: seq<Dev>, live: set<Slug>, before: map<Slug, A.Slot>,
                        events: seq<(Slug, A.Event)>, after: map<Slug, A.Slot>, now: real, grace: real, tick: bool,
                        masked: set<Slug>)
    requires DistinctSlugs(devs) && EventsOf(events, devs, live, before, after, now, grace)
    requires Truthful(h, before, masked)
    ensures Truthful(Iterate(h, cfg, devs, before, events, after, tick), after,
                     NextMasked(masked, Republishes(h), devs, before, events))
  {
    hide Iterate;
    EventsMatch(events, devs, live, before, after, now, grace);
    var next := Iterate(h, cfg, devs, before, events, after, tick);
    var mask := NextMasked(masked, Republishes(h), devs, before, events);
    forall slug | CachedAvailability(next, slug).Some?
      ensures CachedAvailability(next, slug).value == OnlineText(IsPresent(after, slug) && slug !in mask)
    {
      IterationAnnounces(h, cfg, devs, before, events, after, tick, slug);
      var event := A.Emitted(A.SlotOf(before, slug), slug in live, now, grace);
      if slug in Slugs(devs) && event.Some? {
        assert (slug, event.value) in events;
      } else {
        assert slug !in EventSlugs(events);
        assert IsPresent(after, slug) == IsPresent(before, slug);
        if Republishes(h) {
          assert slug in InGrace(devs, before) <==> A.PhaseOf(before, slug) == A.Grace by {
            assert DevOf(devs, slug) in devs;
          }
        }
      }
    }
  }
}

/** Which devices the traffic of a connection is about, and that publishing alone does not touch the connection. */
module BridgeTraffic {
  import opened Discovery
  import opened BridgeModel
  import A = Availability

  predicate TopicAbout(topic: Topic, slugs: iset<Slug>) {
    topic == BridgeStatus || topic.slug in slugs
  }

  predicate MsgAbout(msg: Msg, slugs: iset<Slug>) {
    && TopicAbout(msg.topic, slugs)
    && (msg.payload.Entity? ==>
          && TopicAbout(msg.payload.stateTopic, slugs)
          && forall i :: 0 <= i < |msg.payload.availability| ==> TopicAbout(msg.payload.availability[i], slugs))
  }

  /** Nothing cached or sent in this connection is about any other device. */
  ghost predicate Mentions(h: Hub, slugs: iset<Slug>) {
    && (forall slug :: slug in h.lastPub ==> slug in slugs)
    && (forall i :: 0 <= i < |h.link.sent| ==> MsgAbout(h.link.sent[i], slugs))
  }

  ghost predicate IsCalm(weather: nat -> Weather) {
    forall n :: weather(n) == Calm
  }

  /** In calm weather the connection is as it was. */
  ghost predicate Steady(l: Link, next: Link, weather: nat -> Weather) {
    IsCalm(weather) ==> next.up == l.up && next.needRepublish == l.needRepublish
  }

  lemma SendMentions(h: Hub, weather: nat -> Weather, topic: Topic, payload: Payload, retain: bool, slugs: iset<Slug>)
    requires Mentions(h, slugs) && MsgAbout(Msg(topic, payload), slugs)
    ensures Mentions(h.(link := Send(h.link, weather, topic, payload, retain)), slugs)
    ensures Steady(h.link, Send(h.link, weather, topic, payload, retain), weather)
  {
    hide MsgAbout;
  }

  lemma {:induction false} SendAllMentions(h: Hub, weather: nat -> Weather, d: Dev, vtpe: bool, fields: seq<Field>,
        slugs: iset<Slug>)
    requires Mentions(h, slugs) && d.slug in slugs
    ensures var link := SendAll(h.link, weather, Declarations(d.slug, d.mac, vtpe, fields));
            Mentions(h.(link := link), slugs) && Steady(h.link, link, weather)
  {
    hide Send, Mentions;
    var items := Declarations(d.slug, d.mac, vtpe, fields);
    if fields != [] {
      var init := fields[..|fields| - 1];
      SendAllMentions(h, weather, d, vtpe, init, slugs);
      assert items[..|items| - 1] == Declarations(d.slug, d.mac, vtpe, init);
      var last := items[|items| - 1];
      SendMentions(h.(link := SendAll(h.link, weather, items[..|items| - 1])), weather, last.topic,
                   last.payload, true, slugs);
    }
  }

  lemma PutMentions(h: Hub, cfg: Cfg, slug: Slug, field: Field, text: string, force: bool, slugs: iset<Slug>)
    requires Mentions(h, slugs) && slug in slugs
    ensures var next := Put(h, cfg, slug, field, text, force); Mentions(next, slugs) && Steady(h.link, next.link, cfg.weather)
  {
    SendMentions(h, cfg.weather, State(slug, field), Text(text), IsRetained(field), slugs);
    hide MsgAbout;
  }

  lemma {:induction false} PutFieldsMention(h: Hub, cfg: Cfg, slug: Slug, e: Entry, fields: seq<Field>, force: bool,
        slugs: iset<Slug>)
    requires Mentions(h, slugs) && slug in slugs
    ensures var next := PutFields(h, cfg, slug, e, fields, force);
            Mentions(next, slugs) && Steady(h.link, next.link, cfg.weather)
  {
    hide Put, Mentions;
    if fields != [] {
      var init, field := fields[..|fields| - 1], fields[|fields| - 1];
      PutFieldsMention(h, cfg, slug, e, init, force, slugs);
      if Shown(cfg.fmt, e, field).Some? {
        PutMentions(PutFields(h, cfg, slug, e, init, force), cfg, slug, field, Shown(cfg.fmt, e, field).value, force, slugs);
      }
    }
  }

  lemma DoMentions(h: Hub, cfg: Cfg, job: Job, slugs: iset<Slug>)
    requires Mentions(h, slugs) && job.dev.slug in slugs
    ensures var next := Do(h, cfg, job); Mentions(next, slugs) && Steady(h.link, next.link, cfg.weather)
  {
    hide Declares, Put, PutFields, SendAll, MsgAbout;
    var d := job.dev;
    SendAllMentions(h, cfg.weather, d, d.entry.vtpeSeen, DeclaredFields(d.entry.vtpeSeen), slugs);
    var h1 := Declared(h, cfg, job);
    if job.announce.Some? {
      PutMentions(Touch(h1, d.slug), cfg, d.slug, Availability, OnlineText(job.announce.value), false, slugs);
    }
    var h2 := Announced(h1, cfg, job);
    PutFieldsMention(Touch(h2, d.slug), cfg, d.slug, d.entry, StateFields(d.entry), job.show == Everything, slugs);
  }

  lemma {:induction false} DoAllMention(h: Hub, cfg: Cfg, jobs: seq<Job>, slugs: iset<Slug>)
    requires Mentions(h, slugs) && forall i :: 0 <= i < |jobs| ==> jobs[i].dev.slug in slugs
    ensures var next := DoAll(h, cfg, jobs); Mentions(next, slugs) && Steady(h.link, next.link, cfg.weather)
  {
    hide Do, Mentions;
    if jobs != [] {
      DoAllMention(h, cfg, jobs[..|jobs| - 1], slugs);
      DoMentions(DoAll(h, cfg, jobs[..|jobs| - 1]), cfg, jobs[|jobs| - 1], slugs);
    }
  }

  /** An iteration speaks of its own devices only; one that republishes in a new connection forgets all others. */
  lemma IterateMentions(h: Hub, cfg: Cfg, devs: seq<Dev>, before: map<Slug, A.Slot>, events: seq<(Slug, A.Event)>,
                        after: map<Slug, A.Slot>, tick: bool, slugs: iset<Slug>)
    requires EventsKnown(events, devs) && forall d :: d in devs ==> d.slug in slugs
    requires Mentions(h, slugs) || (Republishes(h) && h.link.sent == [])
    ensures var next := Iterate(h, cfg, devs, before, events, after, tick);
            && Mentions(next, slugs)
            && (IsCalm(cfg.weather) ==> next.link.up == h.link.up)
            && (IsCalm(cfg.weather) && h.link.up ==> !next.link.needRepublish)
  {
    hide DoAll, MsgAbout;
    var jobs := Plan(Republishes(h), devs, before, events, after, tick);
    forall i | 0 <= i < |jobs| ensures jobs[i].dev.slug in slugs {
      assert jobs[i].dev in devs;
    }
    if Republishes(h) {
      var cleared := Hub(map[], map[], h.link.(needRepublish := false));
      assert MsgAbout(Msg(BridgeStatus, Text("online")), slugs) by { StatusIsAboutNobody(slugs); }
      SendMentions(cleared, cfg.weather, BridgeStatus, Text("online"), true, slugs);
    }
    DoAllMention(Opened(h, cfg), cfg, jobs, slugs);
  }

  lemma StatusIsAboutNobody(slugs: iset<Slug>)
    ensures MsgAbout(Msg(BridgeStatus, Text("online")), slugs)
  {
  }
}

/** The per-slug UP / GRACE / DOWN machine (bridge/mttl_ha_bridge.py, AvailabilityMachine). */
module Availability {
  import opened Options
  import opened Orders

  type Slug = string

  datatype Phase = Init | Up | Grace | Down
  datatype Slot = Slot(phase: Phase, since: Option<real>)
  datatype Event = Online | OnlineRepublish | Offline
  datatype Note =
    | FirstOnline
    | Reconnected
    | EnteredGrace
    | ReconnectedWithinGrace(after: real)
    | GraceExpired(after: real)

  const FRESH := Slot(Init, None)

  function SlotOf(slots: map<Slug, Slot>, slug: Slug): Slot {
    if slug in slots then slots[slug] else FRESH
  }

  function PhaseOf(slots: map<Slug, Slot>, slug: Slug): Phase {
    SlotOf(slots, slug).phase
  }

  /** `now - (since or now)`: a recorded time of exactly zero counts as no time. */
  function Elapsed(since: Option<real>, now: real): real {
    match since
    case None => 0.0
    case Some(t) => if t == 0.0 then 0.0 else now - t
  }

  /** The slot one sighting leaves. */
  function Advance(cur: Slot, live: bool, now: real, grace: real): Slot {
    match cur.phase
    case Init => if live then Slot(Up, None) else cur
    case Down => if live then Slot(Up, None) else cur
    case Up => if live then cur else Slot(Grace, Some(now))
    case Grace =>
      if live then Slot(Up, None)
      else if Elapsed(cur.since, now) >= grace then Slot(Down, None)
      else cur
  }

  /** The event one sighting is answered with. */
  function Emitted(cur: Slot, live: bool, now: real, grace: real): Option<Event> {
    match cur.phase
    case Init => if live then Some(Online) else None
    case Down => if live then Some(OnlineRepublish) else None
    case Up => None
    case Grace => if !live && Elapsed(cur.since, now) >= grace then Some(Offline) else None
  }

  /** All slots after one observation of the known slugs. */
  function Observed(slots: map<Slug, Slot>, live: set<Slug>, known: set<Slug>, now: real,
        grace: real): map<Slug, Slot> {
    map slug | slug in slots.Keys + known ::
      if slug in known then Advance(SlotOf(slots, slug), slug in live, now, grace) else slots[slug]
  }

  /** The line one sighting adds to the log. */
  function Noted(cur: Slot, live: bool, now: real, grace: real): Option<Note> {
    match cur.phase
    case Init => if live then Some(FirstOnline) else None
    case Down => if live then Some(Reconnected) else None
    case Up => if live then None else Some(EnteredGrace)
    case Grace =>
      if live then Some(ReconnectedWithinGrace(Elapsed(cur.since, now)))
      else if Elapsed(cur.since, now) >= grace then Some(GraceExpired(Elapsed(cur.since, now)))
      else None
  }

  function Tagged<T>(slug: Slug, value: Option<T>): seq<(Slug, T)> {
    if value.Some? then [(slug, value.value)] else []
  }

  /** The events of one observation, in the order the known slugs are visited. */
  function Events(slots: map<Slug, Slot>, live: set<Slug>, order: seq<Slug>, now: real, grace: real)
    : seq<(Slug, Event)>
  {
    if order == [] then []
    else
      var slug := order[|order| - 1];
      Events(slots, live, order[..|order| - 1], now, grace)
      + Tagged(slug, Emitted(SlotOf(slots, slug), slug in live, now, grace))
  }

  function Notes(slots: map<Slug, Slot>, live: set<Slug>, order: seq<Slug>, now: real, grace: real)
    : seq<(Slug, Note)>
  {
    if order == [] then []
    else
      var slug := order[|order| - 1];
      Notes(slots, live, order[..|order| - 1], now, grace)
      + Tagged(slug, Noted(SlotOf(slots, slug), slug in live, now, grace))
  }

  class AvailabilityMachine {
    const grace: real
    var slots: map<Slug, Slot>
    var notes: seq<(Slug, Note)>

    constructor (grace: real)
      ensures this.grace == grace && slots == map[] && notes == []
    {
      this.grace := grace;
      slots := map[];
      notes := [];
    }

    /** The body of the loop over the known slugs. */
    method Visit(slug: Slug, live: bool, now: real) returns (event: Option<Event>)
      modifies this
      ensures slots == old(slots)[slug := Advance(SlotOf(old(slots), slug), live, now, grace)]
      ensures event == Emitted(SlotOf(old(slots), slug), live, now, grace)
      ensures notes == old(notes) + Tagged(slug, Noted(SlotOf(old(slots), slug), live, now, grace))
    {
      var cur := SlotOf(slots, slug);
      event := None;
      if cur.phase == Init || cur.phase == Down {
        if live {
          event := Some(if cur.phase == Down then OnlineRepublish else Online);
          notes := notes + [(slug, if cur.phase == Down then Reconnected else FirstOnline)];
          cur := Slot(Up, None);
        }
      } else if cur.phase == Up {
        if !live {
          cur := Slot(Grace, Some(now));
          notes := notes + [(slug, EnteredGrace)];
        }
      } else {
        var elapsed := Elapsed(cur.since, now);
        if live {
          cur := Slot(Up, None);
          notes := notes + [(slug, ReconnectedWithinGrace(elapsed))];
        } else if elapsed >= grace {
          cur := Slot(Down, None);
          event := Some(Offline);
          notes := notes + [(slug, GraceExpired(elapsed))];
        }
      }
      slots := slots[slug := cur];
    }

    /** Python leaves the iteration order of the known set open; `order` is the one taken. */
    method Observe(live: set<Slug>, known: set<Slug>, now: real)
      returns (out: seq<(Slug, Event)>, ghost order: seq<Slug>)
      modifies this
      ensures Enumerates(order, known)
      ensures slots == Observed(old(slots), live, known, now, grace)
      ensures out == Events(old(slots), live, order, now, grace)
      ensures notes == Notes(old(slots), live, order, now, grace)
    {
      hide Enumerates, Emitted, Noted, Advance, Observed;
      notes := [];
      out := [];
      order := [];
      NoneEnumerated<Slug>();
      NoneObserved(slots, live, now, grace);
      assert known - known == {};
      var rest := known;
      while rest != {}
        invariant rest <= known
        invariant Enumerates(order, known - rest)
        invariant slots == Observed(old(slots), live, known - rest, now, grace)
        invariant out == Events(old(slots), live, order, now, grace)
        invariant notes == Notes(old(slots), live, order, now, grace)
        decreases |rest|
      {
        var slug :| slug in rest;
        ObservedGrows(old(slots), live, known - rest, slug, now, grace);
        EnumeratesGrows(order, known - rest, slug);
        var event := Visit(slug, slug in live, now);
        out := out + Tagged(slug, event);
        ghost var grown := order + [slug];
        assert grown[..|order|] == order;
        order := grown;
        assert (known - rest) + {slug} == known - (rest - {slug});
        rest := rest - {slug};
      }
      assert known - rest == known;
    }
  }

  lemma NoneObserved(slots: map<Slug, Slot>, live: set<Slug>, now: real, grace: real)
    ensures Observed(slots, live, {}, now, grace) == slots
  {
  }

  lemma ObservedGrows(slots: map<Slug, Slot>, live: set<Slug>, done: set<Slug>, slug: Slug, now: real, grace: real)
    requires slug !in done
    ensures SlotOf(Observed(slots, live, done, now, grace), slug) == SlotOf(slots, slug)
    ensures Observed(slots, live, done + {slug}, now, grace)
         == Observed(slots, live, done, now, grace)[slug := Advance(SlotOf(slots, slug), slug in live, now, grace)]
  {
  }

  // ---- one slug over its whole history --------------------------------------

  datatype Sighting = Sighting(live: bool, at: real)

  function History(h: seq<Sighting>, grace: real): Slot {
    if h == [] then FRESH
    else
      var last := h[|h| - 1];
      Advance(History(h[..|h| - 1], grace), last.live, last.at, grace)
  }

  function HistoryEvents(h: seq<Sighting>, grace: real): seq<Event> {
    if h == [] then []
    else
      var last := h[|h| - 1];
      var event := Emitted(History(h[..|h| - 1], grace), last.live, last.at, grace);
      HistoryEvents(h[..|h| - 1], grace) + if event.Some? then [event.value] else []
  }

  /** The last live sighting, or -1. */
  function LastLive(h: seq<Sighting>): (i: int)
    ensures -1 <= i < |h|
    ensures i >= 0 ==> h[i].live
    ensures forall k :: i < k < |h| ==> !h[k].live
  {
    if h == [] then -1
    else if h[|h| - 1].live then |h| - 1
    else LastLive(h[..|h| - 1])
  }

  /** Some sighting after the j-th found the grace period used up. */
  ghost predicate Expired(h: seq<Sighting>, j: nat, grace: real)
    requires j < |h|
  {
    exists m :: j < m < |h| && Elapsed(Some(h[j].at), h[m].at) >= grace
  }

  /** The machine's state is a closed form of its history, for any times whatever. */
  lemma {:induction false} ClosedForm(h: seq<Sighting>, grace: real)
    ensures LastLive(h) == -1 ==> History(h, grace) == FRESH
    ensures 0 <= LastLive(h) == |h| - 1 ==> History(h, grace) == Slot(Up, None)
    ensures 0 <= LastLive(h) < |h| - 1 ==>
              History(h, grace) == if Expired(h, LastLive(h) + 1, grace) then Slot(Down, None)
                                   else Slot(Grace, Some(h[LastLive(h) + 1].at))
  {
    if h != [] {
      var before := h[..|h| - 1];
      ClosedForm(before, grace);
      if !h[|h| - 1].live && 0 <= LastLive(before) < |before| - 1 {
        var j := LastLive(h) + 1;
        if Expired(before, j, grace) {
          var m :| j < m < |before| && Elapsed(Some(before[j].at), before[m].at) >= grace;
          assert h[m] == before[m];
          assert Expired(h, j, grace);
        } else if Elapsed(Some(h[j].at), h[|h| - 1].at) < grace {
          forall m | j < m < |h| ensures Elapsed(Some(h[j].at), h[m].at) < grace {
            assert m < |before| ==> before[m] == h[m];
          }
        }
      }
    }
  }

  ghost predicate NonDecreasing(h: seq<Sighting>) {
    forall i, j :: 0 <= i < j < |h| ==> h[i].at <= h[j].at
  }

  /** The grace period, counted from the first sighting that missed the slug. */
  function ByTheClock(h: seq<Sighting>, grace: real): Phase
    requires 0 <= LastLive(h) < |h| - 1
  {
    var j, k := LastLive(h) + 1, |h| - 1;
    if k > j && h[k].at - h[j].at >= grace then Down else Grace
  }

  /** With a clock that never runs back, an absent slug is down exactly when it has been away for the
      grace period -- unless the absence was first seen at time zero, which `since or now` forgets: then
      this is so exactly while the grace period is not positive or has not been used up. */
  lemma TimedClosedForm(h: seq<Sighting>, grace: real)
    requires NonDecreasing(h)
    requires 0 <= LastLive(h) < |h| - 1
    ensures History(h, grace).phase == ByTheClock(h, grace)
       <==> h[LastLive(h) + 1].at != 0.0 || grace <= 0.0 || LastLive(h) + 1 == |h| - 1 || h[|h| - 1].at < grace
  {
    ClosedForm(h, grace);
    var j, k := LastLive(h) + 1, |h| - 1;
    if k > j {
      assert Elapsed(Some(h[j].at), h[k].at) >= grace ==> Expired(h, j, grace);
    }
  }

  function ExpectedEvent(i: nat): Event {
    if i == 0 then Online else if i % 2 == 1 then Offline else OnlineRepublish
  }

  /** The events of one slug strictly alternate: online, offline, online_republish, offline, and so on;
      and how many there have been tells whether the slug was last announced up or down. */
  lemma {:induction false} EventsAlternate(h: seq<Sighting>, grace: real)
    ensures forall i :: 0 <= i < |HistoryEvents(h, grace)| ==> HistoryEvents(h, grace)[i] == ExpectedEvent(i)
    ensures History(h, grace).phase == Init <==> |HistoryEvents(h, grace)| == 0
    ensures History(h, grace).phase in {Up, Grace} <==> |HistoryEvents(h, grace)| % 2 == 1
  {
    if h != [] {
      EventsAlternate(h[..|h| - 1], grace);
    }
  }

  // ---- the whole machine is one such history per slug -----------------------

  datatype Look = Look(live: set<Slug>, known: set<Slug>, at: real)

  function Watch(looks: seq<Look>, grace: real): map<Slug, Slot> {
    if looks == [] then map[]
    else
      var last := looks[|looks| - 1];
      Observed(Watch(looks[..|looks| - 1], grace), last.live, last.known, last.at, grace)
  }

  /** What the observations say about one slug: those at which it was known. */
  function Seen(looks: seq<Look>, slug: Slug): seq<Sighting> {
    if looks == [] then []
    else
      var last := looks[|looks| - 1];
      Seen(looks[..|looks| - 1], slug) + if slug in last.known then [Sighting(slug in last.live, last.at)] else []
  }

  /** Slugs do not interfere: each slot is the fold of that slug's own sightings. */
  lemma {:induction false} SlugsAreIndependent(looks: seq<Look>, slug: Slug, grace: real)
    ensures SlotOf(Watch(looks, grace), slug) == History(Seen(looks, slug), grace)
  {
    if looks != [] {
      var before := looks[..|looks| - 1];
      SlugsAreIndependent(before, slug, grace);
      var last := looks[|looks| - 1];
      if slug in last.known {
        var h := Seen(looks, slug);
        assert h[..|h| - 1] == Seen(before, slug);
      } else {
        assert Seen(looks, slug) == Seen(before, slug);
      }
    }
  }

  /** Each known slug has at most one event, and it is the one its own slot emits. */
  lemma {:induction false} EventsPerSlug(slots: map<Slug, Slot>, live: set<Slug>, order: seq<Slug>, now: real,
        grace: real)
    requires forall i, j :: 0 <= i < j < |order| ==> order[i] != order[j]
    ensures forall e :: e in Events(slots, live, order, now, grace) <==>
              e.0 in order && Emitted(SlotOf(slots, e.0), e.0 in live, now, grace) == Some(e.1)
    ensures forall i, j :: 0 <= i < j < |Events(slots, live, order, now, grace)| ==>
              Events(slots, live, order, now, grace)[i].0 != Events(slots, live, order, now, grace)[j].0
  {
    if order != [] {
      var before := order[..|order| - 1];
      EventsPerSlug(slots, live, before, now, grace);
      assert order == before + [order[|order| - 1]];
      assert order[|order| - 1] !in before;
    }
  }

  lemma {:induction false} NotesPerSlug(slots: map<Slug, Slot>, live: set<Slug>, order: seq<Slug>, now: real,
        grace: real)
    ensures forall e :: e in Notes(slots, live, order, now, grace) <==>
              e.0 in order && Noted(SlotOf(slots, e.0), e.0 in live, now, grace) == Some(e.1)
  {
    hide Noted;
    if order != [] {
      var before := order[..|order| - 1];
      NotesPerSlug(slots, live, before, now, grace);
      assert order == before + [order[|order| - 1]];
    }
  }

  /** The line of the log that belongs to a change of phase, after an absence of this length. */
  predicate Logs(note: Note, from: Phase, to: Phase, away: real) {
    match note
    case FirstOnline => from == Init && to == Up
    case Reconnected => from == Down && to == Up
    case EnteredGrace => from == Up && to == Grace
    case ReconnectedWithinGrace(after) => from == Grace && to == Up && after == away
    case GraceExpired(after) => from == Grace && to == Down && after == away
  }

  /** The log of one observation tells exactly the changes of phase of the known slugs. */
  lemma LogTellsChanges(slots: map<Slug, Slot>, live: set<Slug>, known: set<Slug>, order: seq<Slug>, now: real,
                        grace: real, slug: Slug, note: Note)
    requires Enumerates(order, known)
    ensures (slug, note) in Notes(slots, live, order, now, grace)
       <==> slug in known && Logs(note, PhaseOf(slots, slug), PhaseOf(Observed(slots, live, known, now, grace), slug),
                                  Elapsed(SlotOf(slots, slug).since, now))
  {
    NotesPerSlug(slots, live, order, now, grace);
    hide Notes;
  }
}

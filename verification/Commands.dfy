/** Commands from Home Assistant: how a message becomes an inject, and how a pending command is settled
    (bridge/mttl_ha_bridge.py, _on_ha_message and _check_pending). */
module Commands {
  import opened Options
  import opened Orders
  import opened Text

  type Slug = string

  // ---- the command topic ------------------------------------------------------

  datatype Target = Target(prefix: string, slug: Slug, outlet: nat)

  function DigitText(n: nat): string
    requires n <= 4
  {
    [(('0' as int) + n) as char]
  }

  /** The command topic that discovery announces. */
  function CommandTopic(t: Target): string
    requires t.outlet <= 4
  {
    t.prefix + "/" + t.slug + "/outlet/" + DigitText(t.outlet) + "/set"
  }

  /** ^([^/]+)/([^/]+)/outlet/([0-4])/set$ -- where "$" also matches before a final newline. */
  function ParseTopic(topic: string): Option<Target> {
    var p := Split(topic, '/');
    if |p| == 5 && p[0] != "" && p[1] != "" && p[2] == "outlet"
       && |p[3]| == 1 && '0' <= p[3][0] <= '4' && (p[4] == "set" || p[4] == "set\n")
    then Some(Target(p[0], p[1], (p[3][0] as int) - ('0' as int)))
    else None
  }

  lemma CommandTopicPieces(t: Target)
    requires t.outlet <= 4 && t.slug != "" && '/' !in t.slug
    ensures Split(CommandTopic(t), '/') == Split(t.prefix, '/') + [t.slug, "outlet", DigitText(t.outlet), "set"]
  {
    hide Split;
    var d := DigitText(t.outlet);
    var tail3, tail2 := d + "/" + "set", "outlet/" + d + "/set";
    SplitPlain("set", '/');
    SplitPlain(d, '/');
    SplitConcat(d, "set", '/');
    SplitPlain("outlet", '/');
    assert tail2 == "outlet" + "/" + tail3;
    SplitConcat("outlet", tail3, '/');
    SplitPlain(t.slug, '/');
    SplitConcat(t.slug, tail2, '/');
    SplitConcat(t.prefix, t.slug + "/" + tail2, '/');
    assert CommandTopic(t) == t.prefix + "/" + (t.slug + "/" + tail2);
    assert Split(tail3, '/') == [d, "set"];
    assert Split(tail2, '/') == ["outlet", d, "set"];
    assert Split(t.slug + "/" + tail2, '/') == [t.slug, "outlet", d, "set"];
  }

  /** The topic announced for a switch is read back as that switch exactly when the data prefix is one
      non-empty topic level. Under a prefix such as "home/mttl" no command is ever recognised. */
  lemma CommandTopicReadBack(t: Target)
    requires t.outlet <= 4 && t.slug != "" && '/' !in t.slug
    ensures ParseTopic(CommandTopic(t)) == Some(t) <==> t.prefix != "" && '/' !in t.prefix
    ensures ParseTopic(CommandTopic(t)) in {None, Some(t)}
  {
    CommandTopicPieces(t);
    SplitCount(t.prefix, '/');
    if '/' !in t.prefix {
      SplitPlain(t.prefix, '/');
    }
  }

  // ---- accepting a command ----------------------------------------------------

  /** The data prefix, the delays before the one-shot STATUS_GET, and the time a command may stay pending. */
  datatype Config = Config(prefix: string, allDelay: real, outletDelay: real, confirmTimeout: real)

  /** An arriving message, and the two clock readings taken while it is handled: for the deadline and
      for the one-shot. */
  datatype Message = Message(topic: string, payload: string, retain: bool, at: real, armedAt: real)

  datatype Command = Command(slug: Slug, outlet: nat, on: bool, cid: string)

  /** What the guards of _on_ha_message let through. */
  function Accepted(cfg: Config, slug2cid: map<Slug, string>, msg: Message): Option<Command> {
    var target := ParseTopic(msg.topic);
    var value := Upper(Strip(msg.payload));
    if msg.retain then None
    else if target == None || target.value.prefix != cfg.prefix then None
    else if value != "ON" && value != "OFF" then None
    else if target.value.slug !in slug2cid || slug2cid[target.value.slug] == "" then None
    else Some(Command(target.value.slug, target.value.outlet, value == "ON", slug2cid[target.value.slug]))
  }

  type Key = (Slug, nat)

  /** `serial` numbers the accepted commands and `due` remembers the first status_at; neither is read back. */
  datatype Pending = Pending(serial: nat, want: bool, deadline: real, statusAt: Option<real>, due: Option<real>,
                             cid: string, multi: bool, isAll: bool)

  datatype Effect =
    | PowerInject(serial: nat, outlet: nat, on: bool, device: Option<string>)
    | StatusInject(serial: nat, device: Option<string>)
    | Superseded(serial: nat)
    | Applied(serial: nat, command: Pending, at: real)
    | TimedOut(serial: nat, command: Pending, at: real)

  datatype Desk = Desk(pending: map<Key, Pending>, effects: seq<Effect>, accepted: nat)

  function Addressed(cid: string, multi: bool): Option<string> {
    if multi then Some(cid) else None
  }

  function NewPending(cfg: Config, c: Command, multi: bool, serial: nat, at: real, armedAt: real): Pending {
    var delay := if c.outlet == 0 then cfg.allDelay else cfg.outletDelay;
    var due := if delay > 0.0 then Some(armedAt + delay) else None;
    Pending(serial, c.on, at + cfg.confirmTimeout, due, due, c.cid, multi, c.outlet == 0)
  }

  function Receive(d: Desk, cfg: Config, slug2cid: map<Slug, string>, msg: Message): Desk {
    match Accepted(cfg, slug2cid, msg)
    case None => d
    case Some(c) =>
      var multi := |slug2cid| > 1;
      var key := (c.slug, c.outlet);
      Desk(d.pending[key := NewPending(cfg, c, multi, d.accepted, msg.at, msg.armedAt)],
           d.effects + [PowerInject(d.accepted, c.outlet, c.on, Addressed(c.cid, multi))]
             + (if key in d.pending then [Superseded(d.pending[key].serial)] else []),
           d.accepted + 1)
  }

  // ---- settling a command -----------------------------------------------------

  /** The one-shot STATUS_GET is due at this check. */
  predicate Fires(p: Pending, now: real) {
    p.statusAt.Some? && now >= p.statusAt.value
  }

  predicate OneShotDone(p: Pending, now: real) {
    p.statusAt == None || Fires(p, now)
  }

  predicate IsApplied(p: Pending, current: Option<bool>, now: real) {
    current == Some(p.want) && (OneShotDone(p, now) || !p.isAll)
  }

  predicate Leaves(p: Pending, current: Option<bool>, now: real) {
    IsApplied(p, current, now) || now >= p.deadline
  }

  function CheckEffects(p: Pending, current: Option<bool>, now: real): seq<Effect> {
    (if Fires(p, now) then [StatusInject(p.serial, Addressed(p.cid, p.multi))] else [])
    + (if IsApplied(p, current, now) then [Applied(p.serial, p, now)]
       else if now >= p.deadline then [TimedOut(p.serial, p, now)]
       else [])
  }

  function CheckOne(d: Desk, key: Key, current: Option<bool>, now: real): Desk
    requires key in d.pending
  {
    var p := d.pending[key];
    d.(pending := if Leaves(p, current, now) then d.pending - {key}
                  else d.pending[key := if Fires(p, now) then p.(statusAt := None) else p],
       effects := d.effects + CheckEffects(p, current, now))
  }

  /** The last telemetry's word on an outlet. */
  function Current(slug2cid: map<Slug, string>, state: map<string, map<int, bool>>, key: Key): Option<bool> {
    if key.0 in slug2cid && slug2cid[key.0] != "" && slug2cid[key.0] in state && key.1 in state[slug2cid[key.0]]
    then Some(state[slug2cid[key.0]][key.1])
    else None
  }

  function CheckKeys(d: Desk, order: seq<Key>, slug2cid: map<Slug, string>, state: map<string, map<int, bool>>,
        now: real): Desk {
    if order == [] then d
    else
      var before := CheckKeys(d, order[..|order| - 1], slug2cid, state, now);
      var key := order[|order| - 1];
      if key in before.pending then CheckOne(before, key, Current(slug2cid, state, key), now) else before
  }

  class CommandDesk {
    const cfg: Config
    var slug2cid: map<Slug, string>
    var pending: map<Key, Pending>
    var effects: seq<Effect>
    var accepted: nat

    function State(): Desk
      reads this
    {
      Desk(pending, effects, accepted)
    }

    constructor (cfg: Config)
      ensures this.cfg == cfg && slug2cid == map[] && State() == Desk(map[], [], 0)
    {
      this.cfg := cfg;
      slug2cid, pending, effects, accepted := map[], map[], [], 0;
    }

    method OnHaMessage(msg: Message)
      modifies this
      ensures slug2cid == old(slug2cid)
      ensures State() == Receive(old(State()), cfg, slug2cid, msg)
    {
      if msg.retain {
        return;
      }
      var target := ParseTopic(msg.topic);
      if target == None || target.value.prefix != cfg.prefix {
        return;
      }
      var value := Upper(Strip(msg.payload));
      if value != "ON" && value != "OFF" {
        return;
      }
      var slug, outlet, on := target.value.slug, target.value.outlet, value == "ON";
      if slug !in slug2cid || slug2cid[slug] == "" {
        return;
      }
      var cid := slug2cid[slug];
      var multi := |slug2cid| > 1;
      effects := effects + [PowerInject(accepted, outlet, on, if multi then Some(cid) else None)];
      var delay := if outlet == 0 then cfg.allDelay else cfg.outletDelay;
      var due := if delay > 0.0 then Some(msg.armedAt + delay) else None;
      if (slug, outlet) in pending {
        effects := effects + [Superseded(pending[(slug, outlet)].serial)];
      }
      pending := pending[(slug, outlet) :=
        Pending(accepted, on, msg.at + cfg.confirmTimeout, due, due, cid, multi, outlet == 0)];
      accepted := accepted + 1;
    }

    /** `order` is the order in which the pending keys were listed. */
    method CheckPending(state: map<string, map<int, bool>>, now: real) returns (ghost order: seq<Key>)
      modifies this
      ensures slug2cid == old(slug2cid)
      ensures Enumerates(order, old(pending.Keys))
      ensures State() == CheckKeys(old(State()), order, slug2cid, state, now)
    {
      hide CheckOne, Current;
      ghost var d0 := State();
      var rest := pending.Keys;
      order := [];
      while rest != {}
        invariant rest <= old(pending.Keys) && slug2cid == old(slug2cid)
        invariant Enumerates(order, old(pending.Keys) - rest)
        invariant State() == CheckKeys(d0, order, slug2cid, state, now)
        invariant forall key :: key in rest ==> key in pending && pending[key] == old(pending)[key]
        decreases |rest|
      {
        var key :| key in rest;
        var p := pending[key];
        ghost var grown := order + [key];
        assert grown[..|order|] == order && grown[|order|] == key;
        var current := Current(slug2cid, state, key);
        assert CheckKeys(d0, grown, slug2cid, state, now) == CheckOne(State(), key, current, now);
        EnumeratesGrows(order, old(pending.Keys) - rest, key);
        assert (old(pending.Keys) - rest) + {key} == old(pending.Keys) - (rest - {key});
        CheckOneIsLocal(State(), key, current, now);
        Settle(key, current, now);
        order := grown;
        rest := rest - {key};
      }
      assert old(pending.Keys) - rest == old(pending.Keys);
    }

    /** The body of the loop over the pending commands. */
    method Settle(key: Key, current: Option<bool>, now: real)
      requires key in pending
      modifies this
      ensures slug2cid == old(slug2cid)
      ensures State() == CheckOne(old(State()), key, current, now)
    {
      var p := pending[key];
      var q := p;
      var oneShotDone := p.statusAt == None;
      if !oneShotDone && now >= p.statusAt.value {
        effects := effects + [StatusInject(p.serial, if p.multi then Some(p.cid) else None)];
        q := p.(statusAt := None);
        pending := pending[key := q];
        oneShotDone := true;
      }
      var confirmed := current.Some? && current.value == p.want;
      if confirmed && (oneShotDone || !p.isAll) {
        effects := effects + [Applied(p.serial, p, now)];
        pending := pending - {key};
        return;
      }
      if now >= p.deadline {
        effects := effects + [TimedOut(p.serial, p, now)];
        pending := pending - {key};
      }
    }
  }

  lemma CheckOneIsLocal(d: Desk, key: Key, current: Option<bool>, now: real)
    requires key in d.pending
    ensures var next := CheckOne(d, key, current, now);
            forall k :: k != key && k in d.pending ==> k in next.pending && next.pending[k] == d.pending[k]
  {
  }

  // ---- the books ---------------------------------------------------------------

  function PowerCount(effects: seq<Effect>, serial: nat): nat {
    if effects == [] then 0
    else
      var last := effects[|effects| - 1];
      PowerCount(effects[..|effects| - 1], serial) + if last.PowerInject? && last.serial == serial then 1 else 0
  }

  function PowerTotal(effects: seq<Effect>): nat {
    if effects == [] then 0
    else PowerTotal(effects[..|effects| - 1]) + if effects[|effects| - 1].PowerInject? then 1 else 0
  }

  function StatusCount(effects: seq<Effect>, serial: nat): nat {
    if effects == [] then 0
    else
      var last := effects[|effects| - 1];
      StatusCount(effects[..|effects| - 1], serial) + if last.StatusInject? && last.serial == serial then 1 else 0
  }

  /** How often a command has been settled, in whatever way. */
  function EndCount(effects: seq<Effect>, serial: nat): nat {
    if effects == [] then 0
    else
      var last := effects[|effects| - 1];
      EndCount(effects[..|effects| - 1], serial)
      + if (last.Superseded? || last.Applied? || last.TimedOut?) && last.serial == serial then 1 else 0
  }

  lemma {:induction false} Tally(effects: seq<Effect>, more: seq<Effect>, serial: nat)
    ensures PowerCount(effects + more, serial) == PowerCount(effects, serial) + PowerCount(more, serial)
    ensures PowerTotal(effects + more) == PowerTotal(effects) + PowerTotal(more)
    ensures StatusCount(effects + more, serial) == StatusCount(effects, serial) + StatusCount(more, serial)
    ensures EndCount(effects + more, serial) == EndCount(effects, serial) + EndCount(more, serial)
  {
    if more == [] {
      assert effects + more == effects;
    } else {
      assert (effects + more)[..|effects + more| - 1] == effects + more[..|more| - 1];
      Tally(effects, more[..|more| - 1], serial);
    }
  }

  lemma TallyOne(e: Effect, serial: nat)
    ensures PowerCount([e], serial) == if e.PowerInject? && e.serial == serial then 1 else 0
    ensures PowerTotal([e]) == if e.PowerInject? then 1 else 0
    ensures StatusCount([e], serial) == if e.StatusInject? && e.serial == serial then 1 else 0
    ensures EndCount([e], serial) == if (e.Superseded? || e.Applied? || e.TimedOut?) && e.serial == serial then 1 else 0
  {
    assert [e][..0] == [];
  }

  /** A pending command's one-shot has been sent exactly if it had one and it is no longer armed. */
  predicate InBooks(effects: seq<Effect>, p: Pending) {
    && (p.statusAt == p.due || p.statusAt == None)
    && StatusCount(effects, p.serial) == if p.due.Some? && p.statusAt == None then 1 else 0
  }

  /** A settled "All" command has had its one-shot, unless it had none or timed out before it was due. */
  predicate ClosedProperly(effects: seq<Effect>, e: Effect) {
    && (e.Applied? && e.command.isAll && e.command.due.Some? ==> StatusCount(effects, e.serial) == 1)
    && (e.TimedOut? && e.command.due.Some? ==>
          StatusCount(effects, e.serial) == 1 || e.command.deadline <= e.at < e.command.due.value)
    && (e.Applied? || e.TimedOut? ==>
          (e.command.serial == e.serial && (e.command.due == None ==> StatusCount(effects, e.serial) == 0)))
  }

  ghost predicate IsPending(d: Desk, serial: nat) {
    exists key :: key in d.pending && d.pending[key].serial == serial
  }

  /** Every accepted command is either pending or settled exactly once. */
  ghost predicate EndsOnce(d: Desk) {
    forall serial: nat :: EndCount(d.effects, serial) == if serial < d.accepted && !IsPending(d, serial) then 1 else 0
  }

  ghost predicate Books(d: Desk) {
    && PowerTotal(d.effects) == d.accepted
    && (forall serial: nat :: PowerCount(d.effects, serial) == if serial < d.accepted then 1 else 0)
    && (forall serial: nat :: StatusCount(d.effects, serial) <= if serial < d.accepted then 1 else 0)
    && (forall key :: key in d.pending ==> d.pending[key].serial < d.accepted && InBooks(d.effects, d.pending[key]))
    && (forall k, l :: k in d.pending && l in d.pending && k != l ==> d.pending[k].serial != d.pending[l].serial)
    && Closed(d)
  }

  /** Whatever was applied or timed out is no longer pending, and was closed properly. */
  ghost predicate Closed(d: Desk) {
    forall i :: 0 <= i < |d.effects| && (d.effects[i].Applied? || d.effects[i].TimedOut?) ==>
      && d.effects[i].serial < d.accepted
      && (forall key :: key in d.pending ==> d.pending[key].serial != d.effects[i].serial)
      && ClosedProperly(d.effects, d.effects[i])
  }

  /** The message overwrites the pending command with this number. */
  predicate Supersedes(d: Desk, cfg: Config, slug2cid: map<Slug, string>, msg: Message, serial: nat)
    requires Accepted(cfg, slug2cid, msg).Some?
  {
    var c := Accepted(cfg, slug2cid, msg).value;
    (c.slug, c.outlet) in d.pending && d.pending[(c.slug, c.outlet)].serial == serial
  }

  lemma ReceiveCounts(d: Desk, cfg: Config, slug2cid: map<Slug, string>, msg: Message, serial: nat)
    requires Accepted(cfg, slug2cid, msg).Some?
    ensures var effects := Receive(d, cfg, slug2cid, msg).effects;
            && PowerTotal(effects) == PowerTotal(d.effects) + 1
            && PowerCount(effects, serial) == PowerCount(d.effects, serial) + (if serial == d.accepted then 1 else 0)
            && StatusCount(effects, serial) == StatusCount(d.effects, serial)
            && EndCount(effects, serial)
               == EndCount(d.effects, serial) + (if Supersedes(d, cfg, slug2cid, msg, serial) then 1 else 0)
  {
    hide PowerCount, PowerTotal, StatusCount, EndCount;
    var c := Accepted(cfg, slug2cid, msg).value;
    var inject := PowerInject(d.accepted, c.outlet, c.on, Addressed(c.cid, |slug2cid| > 1));
    Tally(d.effects, [inject], serial);
    TallyOne(inject, serial);
    if (c.slug, c.outlet) in d.pending {
      var superseded := Superseded(d.pending[(c.slug, c.outlet)].serial);
      Tally(d.effects + [inject], [superseded], serial);
      TallyOne(superseded, serial);
    } else {
      assert Receive(d, cfg, slug2cid, msg).effects == d.effects + [inject];
    }
  }

  lemma ReceivePending(d: Desk, cfg: Config, slug2cid: map<Slug, string>, msg: Message)
    requires Accepted(cfg, slug2cid, msg).Some?
    requires forall key :: key in d.pending ==> d.pending[key].serial < d.accepted
    requires forall k, l :: k in d.pending && l in d.pending && k != l ==> d.pending[k].serial != d.pending[l].serial
    ensures var next := Receive(d, cfg, slug2cid, msg);
            forall serial: nat :: IsPending(next, serial) <==>
              serial == d.accepted || (IsPending(d, serial) && !Supersedes(d, cfg, slug2cid, msg, serial))
  {
    hide Accepted;
    var c := Accepted(cfg, slug2cid, msg).value;
    var next := Receive(d, cfg, slug2cid, msg);
    forall serial: nat
      ensures IsPending(next, serial) <==>
              serial == d.accepted || (IsPending(d, serial) && !Supersedes(d, cfg, slug2cid, msg, serial))
    {
      if serial == d.accepted {
        assert next.pending[(c.slug, c.outlet)].serial == serial;
      } else if IsPending(d, serial) {
        var key :| key in d.pending && d.pending[key].serial == serial;
        assert key != (c.slug, c.outlet) ==> next.pending[key] == d.pending[key];
      }
    }
  }

  lemma CheckOnePending(d: Desk, key: Key, current: Option<bool>, now: real)
    requires key in d.pending
    requires forall k, l :: k in d.pending && l in d.pending && k != l ==> d.pending[k].serial != d.pending[l].serial
    ensures var next, p := CheckOne(d, key, current, now), d.pending[key];
            forall serial: nat :: IsPending(next, serial) <==>
              IsPending(d, serial) && !(Leaves(p, current, now) && serial == p.serial)
  {
    var next, p := CheckOne(d, key, current, now), d.pending[key];
    forall serial: nat
      ensures IsPending(next, serial) <==> IsPending(d, serial) && !(Leaves(p, current, now) && serial == p.serial)
    {
      if IsPending(d, serial) {
        var k :| k in d.pending && d.pending[k].serial == serial;
        assert k in next.pending ==> next.pending[k].serial == serial;
      }
    }
  }

  lemma ReceiveOnlyOpens(d: Desk, cfg: Config, slug2cid: map<Slug, string>, msg: Message)
    requires Accepted(cfg, slug2cid, msg).Some?
    ensures var effects := Receive(d, cfg, slug2cid, msg).effects;
            && d.effects <= effects
            && forall i :: |d.effects| <= i < |effects| ==> !effects[i].Applied? && !effects[i].TimedOut?
  {
    hide Accepted;
  }

  lemma ReceiveKeepsBooks(d: Desk, cfg: Config, slug2cid: map<Slug, string>, msg: Message)
    requires Books(d)
    ensures Books(Receive(d, cfg, slug2cid, msg))
  {
    hide PowerCount, PowerTotal, StatusCount, Accepted;
    if Accepted(cfg, slug2cid, msg).Some? {
      var next := Receive(d, cfg, slug2cid, msg);
      var c := Accepted(cfg, slug2cid, msg).value;
      var p := next.pending[(c.slug, c.outlet)];
      assert p.serial == d.accepted && p.statusAt == p.due;
      assert next.pending == d.pending[(c.slug, c.outlet) := p];
      forall serial: nat
        ensures PowerTotal(next.effects) == PowerTotal(d.effects) + 1
        ensures PowerCount(next.effects, serial) == PowerCount(d.effects, serial) + (if serial == d.accepted then 1 else 0)
        ensures StatusCount(next.effects, serial) == StatusCount(d.effects, serial)
      {
        ReceiveCounts(d, cfg, slug2cid, msg, serial);
      }
      ReceiveCounts(d, cfg, slug2cid, msg, 0);
      ReceiveKeepsClosed(d, cfg, slug2cid, msg);
      assert next.accepted == d.accepted + 1;
      hide Receive, Closed;
    }
  }

  lemma ReceiveKeepsClosed(d: Desk, cfg: Config, slug2cid: map<Slug, string>, msg: Message)
    requires Accepted(cfg, slug2cid, msg).Some? && Closed(d)
    ensures Closed(Receive(d, cfg, slug2cid, msg))
  {
    hide PowerCount, PowerTotal, StatusCount, Accepted;
    ReceiveOnlyOpens(d, cfg, slug2cid, msg);
    var next := Receive(d, cfg, slug2cid, msg);
    forall serial: nat ensures StatusCount(next.effects, serial) == StatusCount(d.effects, serial) {
      ReceiveCounts(d, cfg, slug2cid, msg, serial);
    }
    forall i | 0 <= i < |next.effects| && (next.effects[i].Applied? || next.effects[i].TimedOut?)
      ensures next.effects[i].serial < next.accepted
      ensures forall k :: k in next.pending ==> next.pending[k].serial != next.effects[i].serial
      ensures ClosedProperly(next.effects, next.effects[i])
    {
      assert next.effects[i] == d.effects[i];
    }
  }

  lemma CheckCounts(effects: seq<Effect>, p: Pending, current: Option<bool>, now: real, serial: nat)
    ensures var more := effects + CheckEffects(p, current, now);
            && PowerTotal(more) == PowerTotal(effects)
            && PowerCount(more, serial) == PowerCount(effects, serial)
            && StatusCount(more, serial)
               == StatusCount(effects, serial) + (if Fires(p, now) && serial == p.serial then 1 else 0)
            && EndCount(more, serial)
               == EndCount(effects, serial) + (if Leaves(p, current, now) && serial == p.serial then 1 else 0)
  {
    var first: seq<Effect> := if Fires(p, now) then [StatusInject(p.serial, Addressed(p.cid, p.multi))] else [];
    var second: seq<Effect> := if IsApplied(p, current, now) then [Applied(p.serial, p, now)]
                               else if now >= p.deadline then [TimedOut(p.serial, p, now)] else [];
    if Fires(p, now) { TallyOne(first[0], serial); }
    if second != [] { TallyOne(second[0], serial); }
    hide PowerCount, PowerTotal, StatusCount, EndCount;
    Tally(first, second, serial);
    Tally(effects, first + second, serial);
    assert CheckEffects(p, current, now) == first + second;
  }

  lemma CheckOneCounts(d: Desk, key: Key, current: Option<bool>, now: real)
    requires key in d.pending
    ensures var next, p := CheckOne(d, key, current, now), d.pending[key];
            && PowerTotal(next.effects) == PowerTotal(d.effects)
            && (forall serial: nat :: PowerCount(next.effects, serial) == PowerCount(d.effects, serial))
            && (forall serial: nat :: StatusCount(next.effects, serial)
                                   == StatusCount(d.effects, serial) + (if Fires(p, now) && serial == p.serial then 1 else 0))
  {
    hide PowerCount, PowerTotal, StatusCount;
    var next, p := CheckOne(d, key, current, now), d.pending[key];
    CheckCounts(d.effects, p, current, now, 0);
    forall serial: nat
      ensures PowerCount(next.effects, serial) == PowerCount(d.effects, serial)
      ensures StatusCount(next.effects, serial)
           == StatusCount(d.effects, serial) + (if Fires(p, now) && serial == p.serial then 1 else 0)
    {
      CheckCounts(d.effects, p, current, now, serial);
    }
  }

  lemma CheckOneKeepsClosed(d: Desk, key: Key, current: Option<bool>, now: real)
    requires Books(d) && key in d.pending
    ensures Closed(CheckOne(d, key, current, now))
  {
    hide PowerCount, PowerTotal, StatusCount;
    var next, p := CheckOne(d, key, current, now), d.pending[key];
    CheckOneCounts(d, key, current, now);
    assert InBooks(d.effects, p);
    forall i | 0 <= i < |next.effects| && (next.effects[i].Applied? || next.effects[i].TimedOut?)
      ensures next.effects[i].serial < next.accepted
      ensures forall k :: k in next.pending ==> next.pending[k].serial != next.effects[i].serial
      ensures ClosedProperly(next.effects, next.effects[i])
    {
      if i < |d.effects| {
        assert next.effects[i] == d.effects[i];
      } else {
        assert next.effects[i] in CheckEffects(p, current, now);
        assert next.effects[i].command == p;
      }
    }
  }

  lemma CheckOneKeepsBooks(d: Desk, key: Key, current: Option<bool>, now: real)
    requires Books(d) && key in d.pending
    ensures Books(CheckOne(d, key, current, now))
  {
    hide PowerCount, PowerTotal, StatusCount, CheckEffects, IsApplied, Closed;
    CheckOneCounts(d, key, current, now);
    CheckOneKeepsClosed(d, key, current, now);
    assert InBooks(d.effects, d.pending[key]);
  }

  lemma ReceiveEndsOnce(d: Desk, cfg: Config, slug2cid: map<Slug, string>, msg: Message)
    requires Books(d) && EndsOnce(d)
    ensures EndsOnce(Receive(d, cfg, slug2cid, msg))
  {
    hide PowerCount, PowerTotal, StatusCount, EndCount, Accepted, ClosedProperly, InBooks;
    if Accepted(cfg, slug2cid, msg).Some? {
      var next := Receive(d, cfg, slug2cid, msg);
      ReceivePending(d, cfg, slug2cid, msg);
      forall serial: nat
        ensures EndCount(next.effects, serial) == if serial < next.accepted && !IsPending(next, serial) then 1 else 0
      {
        ReceiveCounts(d, cfg, slug2cid, msg, serial);
        assert Supersedes(d, cfg, slug2cid, msg, serial) ==> IsPending(d, serial);
      }
    }
  }

  lemma CheckOneEndsOnce(d: Desk, key: Key, current: Option<bool>, now: real)
    requires Books(d) && EndsOnce(d) && key in d.pending
    ensures EndsOnce(CheckOne(d, key, current, now))
  {
    hide PowerCount, PowerTotal, StatusCount, EndCount, ClosedProperly, InBooks;
    var p, next := d.pending[key], CheckOne(d, key, current, now);
    CheckOnePending(d, key, current, now);
    forall serial: nat
      ensures EndCount(next.effects, serial) == if serial < next.accepted && !IsPending(next, serial) then 1 else 0
    {
      CheckCounts(d.effects, p, current, now, serial);
      assert IsPending(d, p.serial);
    }
  }

  lemma {:induction false} CheckKeysKeepsBooks(d: Desk, order: seq<Key>, slug2cid: map<Slug, string>,
                                               state: map<string, map<int, bool>>, now: real)
    requires Books(d) && EndsOnce(d)
    ensures Books(CheckKeys(d, order, slug2cid, state, now)) && EndsOnce(CheckKeys(d, order, slug2cid, state, now))
  {
    hide Books, EndsOnce, CheckOne;
    if order != [] {
      CheckKeysKeepsBooks(d, order[..|order| - 1], slug2cid, state, now);
      var before := CheckKeys(d, order[..|order| - 1], slug2cid, state, now);
      var key := order[|order| - 1];
      if key in before.pending {
        CheckOneKeepsBooks(before, key, Current(slug2cid, state, key), now);
        CheckOneEndsOnce(before, key, Current(slug2cid, state, key), now);
      }
    }
  }

  lemma {:induction false} CheckedKeysAreInTime(d: Desk, order: seq<Key>, slug2cid: map<Slug, string>,
                                                state: map<string, map<int, bool>>, now: real)
    ensures var next := CheckKeys(d, order, slug2cid, state, now);
            && next.pending.Keys <= d.pending.Keys
            && forall key :: key in order && key in next.pending ==> now < next.pending[key].deadline
  {
    if order != [] {
      var init, key := order[..|order| - 1], order[|order| - 1];
      CheckedKeysAreInTime(d, init, slug2cid, state, now);
      assert order == init + [key];
    }
  }

  // ---- runs ----------------------------------------------------------------------

  datatype World = World(desk: Desk, slug2cid: map<Slug, string>)

  datatype Step =
    | Arrives(msg: Message)
    | Polls(slug2cid: map<Slug, string>, state: map<string, map<int, bool>>, now: real, order: seq<Key>)

  function Next(w: World, cfg: Config, step: Step): World {
    match step
    case Arrives(msg) => w.(desk := Receive(w.desk, cfg, w.slug2cid, msg))
    case Polls(slug2cid, state, now, order) => World(CheckKeys(w.desk, order, slug2cid, state, now), slug2cid)
  }

  ghost predicate IsRun(worlds: seq<World>, cfg: Config, steps: seq<Step>) {
    && |worlds| == |steps| + 1
    && worlds[0] == World(Desk(map[], [], 0), map[])
    && (forall i :: 0 <= i < |steps| ==>
          && (steps[i].Polls? ==> Enumerates(steps[i].order, worlds[i].desk.pending.Keys))
          && worlds[i + 1] == Next(worlds[i], cfg, steps[i]))
  }

  lemma EmptyDeskInBooks()
    ensures Books(Desk(map[], [], 0)) && EndsOnce(Desk(map[], [], 0))
  {
  }

  /** In every run: as many power injects as accepted commands, one for each; at most one STATUS_GET per
      command; every command is either still pending or settled exactly once (applied, timed out or
      superseded); and a settled "All" command whose one-shot was due by its deadline had exactly one. */
  lemma {:induction false} CommandsInjectedOnce(worlds: seq<World>, cfg: Config, steps: seq<Step>, i: nat)
    requires IsRun(worlds, cfg, steps) && i < |worlds|
    ensures Books(worlds[i].desk) && EndsOnce(worlds[i].desk)
  {
    hide Books, EndsOnce;
    if i == 0 {
      EmptyDeskInBooks();
    } else {
      CommandsInjectedOnce(worlds, cfg, steps, i - 1);
      var w := worlds[i - 1];
      match steps[i - 1]
      case Arrives(msg) =>
        ReceiveKeepsBooks(w.desk, cfg, w.slug2cid, msg);
        ReceiveEndsOnce(w.desk, cfg, w.slug2cid, msg);
      case Polls(slug2cid, state, now, order) => CheckKeysKeepsBooks(w.desk, order, slug2cid, state, now);
    }
  }

  lemma AllCommandHasExactlyOneStatusGet(worlds: seq<World>, cfg: Config, steps: seq<Step>, i: nat, k: nat)
    requires IsRun(worlds, cfg, steps) && i < |worlds| && k < |worlds[i].desk.effects|
    requires worlds[i].desk.effects[k].Applied? || worlds[i].desk.effects[k].TimedOut?
    requires worlds[i].desk.effects[k].command.isAll
    requires worlds[i].desk.effects[k].command.due.Some?
    requires worlds[i].desk.effects[k].command.due.value <= worlds[i].desk.effects[k].command.deadline
    ensures StatusCount(worlds[i].desk.effects, worlds[i].desk.effects[k].serial) == 1
  {
    CommandsInjectedOnce(worlds, cfg, steps, i);
  }

  /** No pending command survives the first check at or after its deadline, in any run. */
  lemma NoPendingOutlivesItsDeadline(worlds: seq<World>, cfg: Config, steps: seq<Step>, i: nat, key: Key)
    requires IsRun(worlds, cfg, steps) && i < |steps| && steps[i].Polls?
    requires key in worlds[i + 1].desk.pending
    ensures steps[i].now < worlds[i + 1].desk.pending[key].deadline
  {
    var w, s := worlds[i], steps[i];
    CheckedKeysAreInTime(w.desk, s.order, s.slug2cid, s.state, s.now);
  }
}

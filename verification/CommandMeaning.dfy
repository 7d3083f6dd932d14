/** What a command does, in terms of its topic and payload and of the telemetry: which inject it becomes, what is
    then waited for, and what a check makes of it (bridge/mttl_ha_bridge.py, _on_ha_message and _check_pending). */
module CommandMeaning {
  import opened Options
  import opened Orders
  import opened Text
  import opened Commands

  // ---- payloads and topics ---------------------------------------------------------

  const ON_WORDS: set<string> := {"ON", "On", "oN", "on"}

  const OFF_WORDS: set<string> :=
    {"OFF", "OFf", "OfF", "Off", "oFF", "oFf", "ofF", "off"}

  lemma UpperOn(s: string)
    ensures Upper(s) == "ON" <==> s in ON_WORDS
  {
    if |s| == 2 {
      assert s == [s[0], s[1]];
      assert Upper(s) == [UpperChar(s[0]), UpperChar(s[1])];
    }
  }

  lemma UpperOff(s: string)
    ensures Upper(s) == "OFF" <==> s in OFF_WORDS
  {
    if |s| == 3 {
      assert s == [s[0], s[1], s[2]];
      assert Upper(s) == [UpperChar(s[0]), UpperChar(s[1]), UpperChar(s[2])];
    }
  }

  const DIGITS: seq<string> := ["0", "1", "2", "3", "4"]

  /** The command topic of a switch, as text. */
  function TopicText(prefix: string, slug: Slug, outlet: nat): string
    requires outlet <= 4
  {
    prefix + "/" + slug + "/outlet/" + DIGITS[outlet] + "/set"
  }

  lemma {:induction false} JoinSplit(s: string, sep: char)
    ensures Join(Split(s, sep), sep) == s
  {
    if s != "" {
      JoinSplit(s[1..], sep);
      var rest := Split(s[1..], sep);
      if s[0] == sep {
        assert ([""] + rest)[1..] == rest;
      } else {
        var pieces := [[s[0]] + rest[0]] + rest[1..];
        assert Split(s, sep) == pieces && pieces[1..] == rest[1..];
        if |rest| == 1 {
          assert Join(pieces, sep) == [s[0]] + rest[0];
        } else {
          assert Join(pieces, sep) == [s[0]] + rest[0] + [sep] + Join(rest[1..], sep);
          assert Join(rest, sep) == rest[0] + [sep] + Join(rest[1..], sep);
        }
      }
    }
  }

  lemma Join5(p: seq<string>)
    requires |p| == 5
    ensures Join(p, '/') == p[0] + "/" + p[1] + "/" + p[2] + "/" + p[3] + "/" + p[4]
  {
    assert Join(p[4..], '/') == p[4];
    assert p[3..][1..] == p[4..] && p[2..][1..] == p[3..] && p[1..][1..] == p[2..];
    assert Join(p[3..], '/') == p[3] + "/" + p[4];
    assert Join(p[2..], '/') == p[2] + "/" + Join(p[3..], '/');
    assert Join(p[1..], '/') == p[1] + "/" + Join(p[2..], '/');
  }

  /** Only the announced topics, possibly ended by a newline, are recognised. */
  lemma RecognisedTopic(topic: string)
    requires ParseTopic(topic).Some?
    ensures var t := ParseTopic(topic).value;
            && t.outlet <= 4 && t.prefix != "" && t.slug != ""
            && (topic == TopicText(t.prefix, t.slug, t.outlet) || topic == TopicText(t.prefix, t.slug, t.outlet) + "\n")
  {
    var p, t := Split(topic, '/'), ParseTopic(topic).value;
    JoinSplit(topic, '/');
    Join5(p);
    assert p[3] == [p[3][0]] && DIGITS[t.outlet] == p[3];
    hide Split, Join;
  }

  lemma AnnouncedTopic(prefix: string, slug: Slug, outlet: nat)
    requires outlet <= 4 && prefix != "" && '/' !in prefix && slug != "" && '/' !in slug
    ensures ParseTopic(TopicText(prefix, slug, outlet)) == Some(Target(prefix, slug, outlet))
  {
    var t := Target(prefix, slug, outlet);
    assert DigitText(outlet) == DIGITS[outlet];
    CommandTopicReadBack(t);
    hide ParseTopic;
    assert CommandTopic(t) == TopicText(prefix, slug, outlet);
  }

  // ---- theorem: a command is carried out as it says --------------------------------------

  predicate Blank(s: string) {
    forall i :: 0 <= i < |s| ==> IsSpace(s[i])
  }

  /** ON or OFF, in whatever case, with whatever white space around it. */
  ghost predicate Spells(payload: string, on: bool) {
    exists left, word, right ::
      payload == left + word + right && Blank(left) && Blank(right) && word in (if on then ON_WORDS else OFF_WORDS)
  }

  lemma SpelledWord(left: string, word: string, right: string, on: bool)
    requires Blank(left) && Blank(right) && word in (if on then ON_WORDS else OFF_WORDS)
    ensures Upper(Strip(left + word + right)) == if on then "ON" else "OFF"
  {
    assert word != "" && !IsSpace(word[0]) && !IsSpace(word[|word| - 1]);
    StripPadded(left, word, right);
    hide Strip;
    UpperOn(word);
    UpperOff(word);
  }

  lemma SpelledValue(payload: string, on: bool)
    requires Spells(payload, on)
    ensures Upper(Strip(payload)) == if on then "ON" else "OFF"
  {
    var left, word, right :| payload == left + word + right && Blank(left) && Blank(right)
                             && word in (if on then ON_WORDS else OFF_WORDS);
    SpelledWord(left, word, right, on);
  }

  /** Every spelling of ON or OFF on the announced topic of a known device becomes one power inject for that
      outlet and that value, addressed to the device if several are known; the same value is then waited for,
      until the confirmation time is up, with the one-shot delay that belongs to the strip or to an outlet. */
  lemma CommandIsCarriedOut(d: Desk, cfg: Config, slug2cid: map<Slug, string>, msg: Message, slug: Slug, outlet: nat,
                            on: bool)
    requires outlet <= 4 && cfg.prefix != "" && '/' !in cfg.prefix && slug != "" && '/' !in slug
    requires slug in slug2cid && slug2cid[slug] != ""
    requires msg.topic == TopicText(cfg.prefix, slug, outlet) && Spells(msg.payload, on) && !msg.retain
    ensures var next, cid := Receive(d, cfg, slug2cid, msg), slug2cid[slug];
            var replaced: seq<Effect> :=
              if (slug, outlet) in d.pending then [Superseded(d.pending[(slug, outlet)].serial)] else [];
            && next.effects == d.effects + [PowerInject(d.accepted, outlet, on, if |slug2cid| > 1 then Some(cid) else None)]
                               + replaced
            && next.accepted == d.accepted + 1
            && next.pending.Keys == d.pending.Keys + {(slug, outlet)}
            && (forall key :: key in d.pending && key != (slug, outlet) ==> next.pending[key] == d.pending[key])
            && var p := next.pending[(slug, outlet)];
               && p.want == on && p.deadline == msg.at + cfg.confirmTimeout && p.serial == d.accepted
               && p.cid == cid && (p.multi <==> |slug2cid| > 1) && (p.isAll <==> outlet == 0)
               && (outlet == 0 ==> p.statusAt == if cfg.allDelay > 0.0 then Some(msg.armedAt + cfg.allDelay) else None)
               && (outlet != 0 ==> p.statusAt == if cfg.outletDelay > 0.0 then Some(msg.armedAt + cfg.outletDelay) else None)
  {
    AnnouncedTopic(cfg.prefix, slug, outlet);
    SpelledValue(msg.payload, on);
    hide ParseTopic, Strip, Upper, Spells, TopicText;
  }

  lemma {:induction false} LeftParts(s: string) returns (left: string)
    ensures s == left + StripLeft(s) && Blank(left)
  {
    left := "";
    if s != "" && IsSpace(s[0]) {
      var rest := LeftParts(s[1..]);
      left := [s[0]] + rest;
    }
  }

  lemma {:induction false} RightParts(s: string) returns (right: string)
    ensures s == StripRight(s) + right && Blank(right)
  {
    right := "";
    if s != "" && IsSpace(s[|s| - 1]) {
      var rest := RightParts(s[..|s| - 1]);
      right := rest + [s[|s| - 1]];
    }
  }

  lemma OnlySpellings(payload: string, on: bool)
    requires Upper(Strip(payload)) == if on then "ON" else "OFF"
    ensures Spells(payload, on)
  {
    var left := LeftParts(payload);
    var right := RightParts(StripLeft(payload));
    UpperOn(Strip(payload));
    UpperOff(Strip(payload));
    hide StripLeft, StripRight, Upper, Blank;
    var word := Strip(payload);
    assert StripLeft(payload) == word + right;
    assert payload == left + (word + right) == left + word + right;
  }

  /** Nothing else is: what changes anything is not retained, spells ON or OFF, and names a known device on an
      announced topic. */
  lemma OnlyCommandsAct(d: Desk, cfg: Config, slug2cid: map<Slug, string>, msg: Message)
    requires Receive(d, cfg, slug2cid, msg) != d
    ensures !msg.retain && exists slug, outlet: nat, on ::
              && outlet <= 4 && slug in slug2cid && slug2cid[slug] != ""
              && (msg.topic == TopicText(cfg.prefix, slug, outlet) || msg.topic == TopicText(cfg.prefix, slug, outlet) + "\n")
              && Spells(msg.payload, on)
  {
    var t := ParseTopic(msg.topic).value;
    RecognisedTopic(msg.topic);
    var on := Upper(Strip(msg.payload)) == "ON";
    OnlySpellings(msg.payload, on);
    hide ParseTopic, Strip, Upper, Spells, TopicText;
    assert t.slug in slug2cid && slug2cid[t.slug] != "" && Spells(msg.payload, on);
  }

  // ---- theorem: what a check makes of the pending commands ------------------------------------

  /** The effects of a whole check, key by key. */
  function EffectsOf(pending: map<Key, Pending>, order: seq<Key>, slug2cid: map<Slug, string>,
                     state: map<string, map<int, bool>>, now: real): seq<Effect>
    requires forall key :: key in order ==> key in pending
  {
    if order == [] then []
    else
      var key := order[|order| - 1];
      EffectsOf(pending, order[..|order| - 1], slug2cid, state, now)
      + CheckEffects(pending[key], Current(slug2cid, state, key), now)
  }

  ghost predicate Distinct(order: seq<Key>) {
    forall i, j :: 0 <= i < j < |order| ==> order[i] != order[j]
  }

  lemma {:induction false} CheckedKeyByKey(d: Desk, order: seq<Key>, slug2cid: map<Slug, string>,
        state: map<string, map<int, bool>>, now: real)
    requires Distinct(order) && forall key :: key in order ==> key in d.pending
    ensures var next := CheckKeys(d, order, slug2cid, state, now);
            && next.effects == d.effects + EffectsOf(d.pending, order, slug2cid, state, now)
            && next.accepted == d.accepted
            && (forall key :: key in d.pending && key !in order ==>
                  key in next.pending && next.pending[key] == d.pending[key])
            && next.pending.Keys <= d.pending.Keys
            && (forall key :: key in order ==>
                  var p := d.pending[key];
                  && (key in next.pending <==> !Leaves(p, Current(slug2cid, state, key), now))
                  && (key in next.pending ==> next.pending[key] == if Fires(p, now) then p.(statusAt := None) else p))
  {
    hide CheckEffects, Leaves, Fires, Current;
    if order != [] {
      var init, key := order[..|order| - 1], order[|order| - 1];
      assert order == init + [key];
      CheckedKeyByKey(d, init, slug2cid, state, now);
      var before := CheckKeys(d, init, slug2cid, state, now);
      assert key !in init;
      assert before.pending[key] == d.pending[key];
    }
  }

  lemma {:induction false} EffectsMembers(pending: map<Key, Pending>, order: seq<Key>, slug2cid: map<Slug, string>,
        state: map<string, map<int, bool>>, now: real, e: Effect)
    requires forall key :: key in order ==> key in pending
    ensures e in EffectsOf(pending, order, slug2cid, state, now)
       <==> exists key :: key in order && e in CheckEffects(pending[key], Current(slug2cid, state, key), now)
  {
    hide CheckEffects, Current;
    if order != [] {
      EffectsMembers(pending, order[..|order| - 1], slug2cid, state, now, e);
      assert order == order[..|order| - 1] + [order[|order| - 1]];
    }
  }

  /** The latest telemetry of the device behind the slug gives this value for the outlet. */
  predicate Shows(slug2cid: map<Slug, string>, state: map<string, map<int, bool>>, key: Key, value: bool) {
    && key.0 in slug2cid && slug2cid[key.0] != "" && slug2cid[key.0] in state
    && key.1 in state[slug2cid[key.0]] && state[slug2cid[key.0]][key.1] == value
  }

  predicate Asked(p: Pending, now: real) {
    p.statusAt.Some? && p.statusAt.value <= now
  }

  /** The telemetry shows the commanded value; for the whole strip, the status has been asked for. */
  predicate Confirmed(slug2cid: map<Slug, string>, state: map<string, map<int, bool>>, key: Key, p: Pending, now: real) {
    Shows(slug2cid, state, key, p.want) && (p.isAll ==> p.statusAt == None || Asked(p, now))
  }

  lemma KeyEffects(slug2cid: map<Slug, string>, state: map<string, map<int, bool>>, key: Key, p: Pending, now: real)
    ensures var current := Current(slug2cid, state, key);
            var added, confirmed := CheckEffects(p, current, now), Confirmed(slug2cid, state, key, p, now);
            && (Asked(p, now) <==> StatusInject(p.serial, if p.multi then Some(p.cid) else None) in added)
            && (confirmed <==> Applied(p.serial, p, now) in added)
            && (p.deadline <= now && !confirmed <==> TimedOut(p.serial, p, now) in added)
            && (Leaves(p, current, now) <==> p.deadline <= now || confirmed)
            && (Fires(p, now) <==> Asked(p, now))
  {
  }

  /** In every run, what a check does with each pending command: it asks for the status once its time has come;
      it reports the command applied exactly if the telemetry shows the commanded value and, for the whole strip,
      the status has been asked for; else timed out exactly if the deadline has come; else it keeps it. */
  lemma CheckSettlesAsShown(worlds: seq<World>, cfg: Config, steps: seq<Step>, i: nat, key: Key)
    requires IsRun(worlds, cfg, steps) && i < |steps| && steps[i].Polls? && key in worlds[i].desk.pending
    ensures worlds[i].desk.effects <= worlds[i + 1].desk.effects
    ensures var p, s, next := worlds[i].desk.pending[key], steps[i], worlds[i + 1].desk;
            var added, confirmed := next.effects[|worlds[i].desk.effects|..], Confirmed(s.slug2cid, s.state, key, p, s.now);
            && (Asked(p, s.now) <==> StatusInject(p.serial, if p.multi then Some(p.cid) else None) in added)
            && (confirmed <==> Applied(p.serial, p, s.now) in added)
            && (p.deadline <= s.now && !confirmed <==> TimedOut(p.serial, p, s.now) in added)
            && (key in next.pending <==> s.now < p.deadline && !confirmed)
            && (key in next.pending ==> next.pending[key] == if Asked(p, s.now) then p.(statusAt := None) else p)
  {
    hide Books, EndsOnce, CheckOne, CheckKeys, CheckEffects, Current, Confirmed, Asked, Leaves, Fires, EffectsOf;
    CommandsInjectedOnce(worlds, cfg, steps, i);
    var d, s := worlds[i].desk, steps[i];
    var p := d.pending[key];
    CheckedKeyByKey(d, s.order, s.slug2cid, s.state, s.now);
    KeyEffects(s.slug2cid, s.state, key, p, s.now);
    OwnEffects(d, s.order, s.slug2cid, s.state, s.now, key, StatusInject(p.serial, if p.multi then Some(p.cid) else None));
    OwnEffects(d, s.order, s.slug2cid, s.state, s.now, key, Applied(p.serial, p, s.now));
    OwnEffects(d, s.order, s.slug2cid, s.state, s.now, key, TimedOut(p.serial, p, s.now));
    var next := worlds[i + 1].desk;
    assert next.effects[|d.effects|..] == EffectsOf(d.pending, s.order, s.slug2cid, s.state, s.now);
  }

  /** Serial numbers tell whose effect it is. */
  lemma OwnEffects(d: Desk, order: seq<Key>, slug2cid: map<Slug, string>, state: map<string, map<int, bool>>,
                   now: real, key: Key, e: Effect)
    requires Books(d) && Enumerates(order, d.pending.Keys) && key in d.pending
    requires (e.StatusInject? || e.Applied? || e.TimedOut?) && e.serial == d.pending[key].serial
    ensures e in EffectsOf(d.pending, order, slug2cid, state, now)
       <==> e in CheckEffects(d.pending[key], Current(slug2cid, state, key), now)
  {
    hide PowerCount, PowerTotal, StatusCount, Closed, InBooks, Current;
    EffectsMembers(d.pending, order, slug2cid, state, now, e);
    assert forall k :: k in order && e in CheckEffects(d.pending[k], Current(slug2cid, state, k), now) ==> k == key;
  }
}

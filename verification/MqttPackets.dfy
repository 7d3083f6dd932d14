/** The client-side MQTT 3.1.1 packet bodies (bridge/mttl_mqtt_client.py), and a reader that takes the
    fields in the order sections 3.1.2, 3.1.3 and 3.8.3 of MQTT 3.1.1 lay down. */
module MqttPackets {
  import opened Options

  type Byte = n: nat | n < 256
  type Bytes = seq<Byte>

  // ---- building -----------------------------------------------------------------

  /** _u16: the low sixteen bits, most significant byte first. */
  function U16(n: nat): (b: Bytes)
    ensures |b| == 2
  {
    [n / 256 % 256, n % 256]
  }

  /** _str */
  function Str(b: Bytes): Bytes {
    U16(|b|) + b
  }

  datatype Will = Will(topic: Bytes, payload: Bytes, qos: nat, retain: bool)

  datatype Connect = Connect(clientId: Bytes, keepalive: nat, clean: bool, username: Option<Bytes>,
                             password: Option<Bytes>, will: Option<Will>)

  function Bit(b: bool, weight: nat): nat {
    if b then weight else 0
  }

  /** The flag bits are disjoint, so or-ing them together is adding them. */
  function Flags(c: Connect): (f: Byte) {
    Bit(c.clean, 0x02)
    + (match c.will
       case None => 0
       case Some(w) => 0x04 + (w.qos % 4) * 8 + Bit(w.retain, 0x20))
    + Bit(c.username.Some?, 0x80)
    + Bit(c.password.Some?, 0x40)
  }

  const PROTOCOL: Bytes := [77, 81, 84, 84]
  const LEVEL: Byte := 4

  method BuildConnect(c: Connect) returns (body: Bytes)
    ensures body == ConnectBody(c)
  {
    var flags: nat := 0;
    if c.clean {
      flags := flags + 0x02;
    }
    if c.will.Some? {
      flags := flags + 0x04;
      flags := flags + (c.will.value.qos % 4) * 8;
      if c.will.value.retain {
        flags := flags + 0x20;
      }
    }
    if c.username.Some? {
      flags := flags + 0x80;
    }
    if c.password.Some? {
      flags := flags + 0x40;
    }
    assert flags == Flags(c);
    hide Flags, Str, U16;
    body := Str(PROTOCOL) + [LEVEL, flags] + U16(c.keepalive) + Str(c.clientId);
    if c.will.Some? {
      body := body + (Str(c.will.value.topic) + Str(c.will.value.payload));
    }
    if c.username.Some? {
      body := body + Str(c.username.value);
    }
    if c.password.Some? {
      body := body + Str(c.password.value);
    }
  }

  function Optionally(b: Option<Bytes>): Bytes {
    match b case None => [] case Some(text) => Str(text)
  }

  function WillBody(w: Option<Will>): Bytes {
    match w case None => [] case Some(will) => Str(will.topic) + Str(will.payload)
  }

  function ConnectBody(c: Connect): Bytes {
    Str(PROTOCOL) + [LEVEL, Flags(c)] + U16(c.keepalive) + Str(c.clientId)
    + WillBody(c.will) + Optionally(c.username) + Optionally(c.password)
  }

  datatype Filter = Filter(topic: Bytes, qos: nat)

  datatype Subscribe = Subscribe(packetId: nat, filters: seq<Filter>)

  function FilterBody(filters: seq<Filter>): Bytes {
    if filters == [] then []
    else Str(filters[0].topic) + [filters[0].qos % 4] + FilterBody(filters[1..])
  }

  function SubscribeBody(s: Subscribe): Bytes {
    U16(s.packetId) + FilterBody(s.filters)
  }

  lemma {:induction false} FilterBodyGrows(filters: seq<Filter>, f: Filter)
    ensures FilterBody(filters + [f]) == FilterBody(filters) + (Str(f.topic) + [f.qos % 4])
  {
    if filters == [] {
      assert [f][1..] == [];
    } else {
      assert (filters + [f])[1..] == filters[1..] + [f];
      FilterBodyGrows(filters[1..], f);
      hide Str;
      assert (Str(filters[0].topic) + [filters[0].qos % 4]) + (FilterBody(filters[1..]) + (Str(f.topic) + [f.qos % 4]))
          == FilterBody(filters) + (Str(f.topic) + [f.qos % 4]);
    }
  }

  method BuildSubscribe(s: Subscribe) returns (body: Bytes)
    ensures body == SubscribeBody(s)
  {
    hide Str, FilterBody;
    body := U16(s.packetId);
    EmptyFilters();
    for i := 0 to |s.filters|
      invariant body == U16(s.packetId) + FilterBody(s.filters[..i])
    {
      var f := s.filters[i];
      assert s.filters[..i + 1] == s.filters[..i] + [f];
      FilterBodyGrows(s.filters[..i], f);
      body := body + (Str(f.topic) + [f.qos % 4]);
    }
    assert s.filters[..|s.filters|] == s.filters;
  }

  lemma EmptyFilters()
    ensures FilterBody([]) == []
  {
  }

  // ---- reading ---------------------------------------------------------------------

  /** A field and what follows it. */
  datatype Read<T> = Bad | Got(value: T, rest: Bytes)

  function ReadU16(b: Bytes): (r: Read<nat>)
    ensures r.Got? ==> r.value < 0x1_0000
  {
    if |b| < 2 then Bad else Got(256 * b[0] as int + b[1] as int, b[2..])
  }

  function ReadStr(b: Bytes): (r: Read<Bytes>)
    ensures r.Got? ==> |r.value| < 0x1_0000
  {
    match ReadU16(b)
    case Bad => Bad
    case Got(n, rest) => if |rest| < n then Bad else Got(rest[..n], rest[n..])
  }

  function ReadIf(present: bool, b: Bytes): (r: Read<Option<Bytes>>)
    ensures r.Got? && r.value.Some? ==> |r.value.value| < 0x1_0000
  {
    if !present then Got(None, b)
    else match ReadStr(b) case Bad => Bad case Got(text, rest) => Got(Some(text), rest)
  }

  function ReadWill(flags: Byte, b: Bytes): (r: Read<Option<Will>>)
    ensures r.Got? && r.value.Some? ==>
              |r.value.value.topic| < 0x1_0000 && |r.value.value.payload| < 0x1_0000 && r.value.value.qos < 4
  {
    if flags / 4 % 2 == 0 then Got(None, b)
    else
      match ReadStr(b)
      case Bad => Bad
      case Got(topic, after) =>
        match ReadStr(after)
        case Bad => Bad
        case Got(payload, rest) => Got(Some(Will(topic, payload, flags / 8 % 4, flags / 32 % 2 == 1)), rest)
  }

  /** Variable header, then client identifier, will, user name and password, and then the end. */
  function ReadConnect(b: Bytes): Option<Connect> {
    match ReadStr(b)
    case Bad => None
    case Got(protocol, r0) =>
      if protocol != PROTOCOL || |r0| < 2 || r0[0] != LEVEL then None
      else
        var flags := r0[1];
        match ReadU16(r0[2..])
        case Bad => None
        case Got(keepalive, r1) =>
          match ReadStr(r1)
          case Bad => None
          case Got(clientId, r2) =>
            match ReadWill(flags, r2)
            case Bad => None
            case Got(will, r3) =>
              match ReadIf(flags / 128 % 2 == 1, r3)
              case Bad => None
              case Got(username, r4) =>
                match ReadIf(flags / 64 % 2 == 1, r4)
                case Bad => None
                case Got(password, r5) =>
                  if r5 == [] then Some(Connect(clientId, keepalive, flags / 2 % 2 == 1, username, password, will)) else None
  }

  function ReadFilters(b: Bytes): Option<seq<Filter>>
    decreases |b|
  {
    if b == [] then Some([])
    else
      match ReadStr(b)
      case Bad => None
      case Got(topic, rest) =>
        if rest == [] || rest[0] >= 4 then None
        else match ReadFilters(rest[1..])
             case None => None
             case Some(more) => Some([Filter(topic, rest[0])] + more)
  }

  function ReadSubscribe(b: Bytes): Option<Subscribe> {
    match ReadU16(b)
    case Bad => None
    case Got(packetId, rest) =>
      match ReadFilters(rest)
      case None => None
      case Some(filters) => Some(Subscribe(packetId, filters))
  }

  // ---- reading what was built ----------------------------------------------------------

  predicate Fits(b: Bytes) {
    |b| <= 65535
  }

  predicate FitsOption(b: Option<Bytes>) {
    b.Some? ==> Fits(b.value)
  }

  predicate FitsWill(w: Option<Will>) {
    w.Some? ==> Fits(w.value.topic) && Fits(w.value.payload) && w.value.qos <= 3
  }

  /** Every length and number is within its field. */
  predicate FitsConnect(c: Connect) {
    && c.keepalive <= 65535 && Fits(c.clientId) && FitsOption(c.username) && FitsOption(c.password) && FitsWill(c.will)
  }

  predicate FitsSubscribe(s: Subscribe) {
    s.packetId <= 65535 && forall i :: 0 <= i < |s.filters| ==> Fits(s.filters[i].topic) && s.filters[i].qos <= 3
  }

  lemma ReadBackU16(n: nat, rest: Bytes)
    requires n <= 65535
    ensures ReadU16(U16(n) + rest) == Got(n, rest)
  {
    assert (U16(n) + rest)[2..] == rest;
  }

  lemma ReadBackStr(b: Bytes, rest: Bytes)
    requires Fits(b)
    ensures ReadStr(Str(b) + rest) == Got(b, rest)
  {
    assert Str(b) + rest == U16(|b|) + (b + rest);
    ReadBackU16(|b|, b + rest);
    assert (b + rest)[..|b|] == b && (b + rest)[|b|..] == rest;
  }

  lemma ReadBackOptional(b: Option<Bytes>, rest: Bytes)
    requires FitsOption(b)
    ensures ReadIf(b.Some?, Optionally(b) + rest) == Got(b, rest)
  {
    if b.Some? {
      ReadBackStr(b.value, rest);
    } else {
      assert Optionally(b) + rest == rest;
    }
  }

  /** The bits of a sum of disjoint powers of two. */
  lemma BitsOf(clean: nat, will: nat, qos: nat, retain: nat, password: nat, username: nat)
    requires clean <= 1 && will <= 1 && qos <= 3 && retain <= 1 && password <= 1 && username <= 1
    ensures var f := 2 * clean + 4 * will + 8 * qos + 32 * retain + 64 * password + 128 * username;
            && f / 2 % 2 == clean && f / 4 % 2 == will && f / 8 % 4 == qos
            && f / 32 % 2 == retain && f / 64 % 2 == password && f / 128 % 2 == username
  {
    var f := 2 * clean + 4 * will + 8 * qos + 32 * retain + 64 * password + 128 * username;
    assert f / 2 == clean + 2 * (will + 2 * qos + 8 * retain + 16 * password + 32 * username);
    assert f / 4 == will + 2 * (qos + 4 * retain + 8 * password + 16 * username);
    assert f / 8 == qos + 4 * (retain + 2 * password + 4 * username);
    assert f / 32 == retain + 2 * (password + 2 * username);
    assert f / 64 == password + 2 * username;
    assert f / 128 == username;
  }

  lemma FlagBits(c: Connect)
    ensures Flags(c) / 2 % 2 == 1 <==> c.clean
    ensures Flags(c) / 128 % 2 == 1 <==> c.username.Some?
    ensures Flags(c) / 64 % 2 == 1 <==> c.password.Some?
    ensures Flags(c) / 4 % 2 == 0 <==> c.will == None
    ensures c.will.Some? ==> Flags(c) / 8 % 4 == c.will.value.qos % 4 && (Flags(c) / 32 % 2 == 1 <==> c.will.value.retain)
  {
    var clean, will := Bit(c.clean, 1), Bit(c.will.Some?, 1);
    var qos := if c.will.Some? then c.will.value.qos % 4 else 0;
    var retain := if c.will.Some? then Bit(c.will.value.retain, 1) else 0;
    var password, username := Bit(c.password.Some?, 1), Bit(c.username.Some?, 1);
    assert Flags(c) == 2 * clean + 4 * will + 8 * qos + 32 * retain + 64 * password + 128 * username;
    hide Flags;
    BitsOf(clean, will, qos, retain, password, username);
  }

  lemma ReadBackWill(c: Connect, rest: Bytes)
    requires FitsWill(c.will)
    ensures ReadWill(Flags(c), WillBody(c.will) + rest) == Got(c.will, rest)
  {
    hide Flags, Str, ReadStr;
    FlagBits(c);
    match c.will
    case None => assert WillBody(c.will) + rest == rest;
    case Some(w) =>
      assert WillBody(c.will) + rest == Str(w.topic) + (Str(w.payload) + rest);
      ReadBackStr(w.topic, Str(w.payload) + rest);
      ReadBackStr(w.payload, rest);
  }

  lemma ConnectReadBack(c: Connect)
    requires FitsConnect(c)
    ensures ReadConnect(ConnectBody(c)) == Some(c)
  {
    FlagBits(c);
    hide Flags, Str, WillBody, Optionally, ReadWill, ReadIf, ReadStr, ReadU16;
    var t4 := Optionally(c.password);
    var t3 := Optionally(c.username) + t4;
    var t2 := WillBody(c.will) + t3;
    var t1 := Str(c.clientId) + t2;
    var t0 := [LEVEL, Flags(c)] + (U16(c.keepalive) + t1);
    assert ConnectBody(c) == Str(PROTOCOL) + t0;
    ReadBackStr(PROTOCOL, t0);
    assert t0[2..] == U16(c.keepalive) + t1 && t0[0] == LEVEL && t0[1] == Flags(c);
    ReadBackU16(c.keepalive, t1);
    ReadBackStr(c.clientId, t2);
    ReadBackWill(c, t3);
    ReadBackOptional(c.username, t4);
    assert t4 + [] == t4;
    ReadBackOptional(c.password, []);
  }

  lemma ReadConnectFits(b: Bytes)
    ensures ReadConnect(b).Some? ==> FitsConnect(ReadConnect(b).value)
  {
  }

  /** A CONNECT body is read back as exactly what was asked for -- for every combination of will, user name
      and password, of clean session and retain, and every keepalive -- precisely when all lengths fit in
      16 bits, the keepalive does, and the will's QoS is at most 3. */
  lemma ConnectRoundTrip(c: Connect)
    ensures ReadConnect(ConnectBody(c)) == Some(c) <==> FitsConnect(c)
  {
    if FitsConnect(c) {
      ConnectReadBack(c);
    } else {
      ReadConnectFits(ConnectBody(c));
    }
  }

  lemma {:induction false} FiltersReadBack(filters: seq<Filter>)
    requires forall i :: 0 <= i < |filters| ==> Fits(filters[i].topic) && filters[i].qos <= 3
    ensures ReadFilters(FilterBody(filters)) == Some(filters)
  {
    hide Str, ReadStr;
    if filters != [] {
      var f, tail := filters[0], FilterBody(filters[1..]);
      FiltersReadBack(filters[1..]);
      assert FilterBody(filters) == Str(f.topic) + ([f.qos % 4] + tail);
      ReadBackStr(f.topic, [f.qos % 4] + tail);
      assert ([f.qos % 4] + tail)[1..] == tail;
      NotEmpty(f.topic, [f.qos % 4] + tail);
      assert [f] + filters[1..] == filters;
    }
  }

  lemma NotEmpty(b: Bytes, rest: Bytes)
    ensures Str(b) + rest != []
  {
    assert |Str(b)| >= 2;
  }

  lemma {:induction false} ReadFiltersFits(b: Bytes)
    ensures ReadFilters(b).Some? ==>
              forall i :: 0 <= i < |ReadFilters(b).value| ==>
                Fits(ReadFilters(b).value[i].topic) && ReadFilters(b).value[i].qos <= 3
    decreases |b|
  {
    if b != [] && ReadStr(b).Got? && ReadStr(b).rest != [] {
      ReadFiltersFits(ReadStr(b).rest[1..]);
    }
  }

  /** So is a SUBSCRIBE body, for every list of topic filters. */
  lemma SubscribeRoundTrip(s: Subscribe)
    ensures ReadSubscribe(SubscribeBody(s)) == Some(s) <==> FitsSubscribe(s)
  {
    hide ReadFilters, FilterBody;
    if FitsSubscribe(s) {
      ReadBackU16(s.packetId, FilterBody(s.filters));
      FiltersReadBack(s.filters);
    } else if ReadSubscribe(SubscribeBody(s)).Some? {
      ReadFiltersFits(ReadU16(SubscribeBody(s)).rest);
    }
  }

  /** The ten bytes before the payload of a CONNECT, as section 3.1.2 has them: the name MQTT with its length, level 4,
      the flags, and the keepalive with its high byte first. A SUBSCRIBE begins with its packet identifier likewise. */
  lemma VariableHeaders(c: Connect, s: Subscribe)
    ensures |ConnectBody(c)| >= 10
    ensures ConnectBody(c)[..10]
         == [0, 4, 'M' as int, 'Q' as int, 'T' as int, 'T' as int, 4, Flags(c), c.keepalive / 256 % 256, c.keepalive % 256]
    ensures |SubscribeBody(s)| >= 2 && SubscribeBody(s)[..2] == [s.packetId / 256 % 256, s.packetId % 256]
  {
    hide Flags, WillBody, Optionally, FilterBody;
    var head: Bytes := Str(PROTOCOL) + [LEVEL, Flags(c)] + U16(c.keepalive);
    var tail := Str(c.clientId) + WillBody(c.will) + Optionally(c.username) + Optionally(c.password);
    assert |head| == 10 && ConnectBody(c) == head + tail;
    assert ConnectBody(c)[..10] == head;
  }

  // ---- packet identifiers ----------------------------------------------------------------

  /** (pid % 0xFFFF) + 1 */
  function NextPid(pid: nat): nat {
    pid % 0xFFFF + 1
  }

  function PidAfter(pid: nat, n: nat): nat {
    if n == 0 then pid else NextPid(PidAfter(pid, n - 1))
  }

  lemma {:induction false} PidClosedForm(pid: nat, n: nat)
    requires 1 <= pid <= 0xFFFF
    ensures PidAfter(pid, n) == (pid - 1 + n) % 0xFFFF + 1
  {
    if n > 0 {
      PidClosedForm(pid, n - 1);
      var x := pid - 1 + (n - 1);
      assert (x % 0xFFFF + 1) % 0xFFFF == (x + 1) % 0xFFFF;
    }
  }

  /** A packet identifier is never zero, always fits its field, and does not come again within 65535. */
  lemma PidsAreFresh(pid: nat, n: nat)
    requires 1 <= pid <= 0xFFFF
    ensures 1 <= PidAfter(pid, n) <= 0xFFFF
    ensures 0 < n < 0xFFFF ==> PidAfter(pid, n) != pid
  {
    PidClosedForm(pid, n);
  }
}

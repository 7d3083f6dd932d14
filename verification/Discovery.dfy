/** The topics the bridge publishes on and the discovery configs that declare them (bridge/ha_discovery.py). */
module Discovery {
  import opened Options

  type Slug = string

  /** What can be published about a device. Channel 0 is "All" for outlets and "total" for power and energy. */
  datatype Field =
    | Outlet(n: nat)
    | Power(n: nat)
    | Voltage
    | Temp(n: nat)
    | Energy(n: nat)
    | Availability

  datatype Topic =
    | BridgeStatus
    | State(slug: Slug, field: Field)
    | Config(slug: Slug, field: Field)

  datatype Payload =
    | Text(text: string)
    | Entity(stateTopic: Topic, commandOutlet: Option<nat>, availability: seq<Topic>,
             mac: string, version: Option<string>)

  datatype Item = Item(topic: Topic, payload: Payload)

  const OUTLETS: seq<Field> := [Outlet(0), Outlet(1), Outlet(2), Outlet(3), Outlet(4)]
  const POWERS: seq<Field> := [Power(0), Power(1), Power(2), Power(3), Power(4)]
  const TEMPS: seq<Field> := [Temp(1), Temp(2), Temp(3), Temp(4)]
  const ENERGIES: seq<Field> := [Energy(0), Energy(1), Energy(2), Energy(3), Energy(4)]

  /** The fields every device has, and those of a device that has sent a full v/t/p/e report. */
  const BASE: seq<Field> := OUTLETS + POWERS
  const VTPE: seq<Field> := [Voltage] + TEMPS + ENERGIES

  function Declaration(slug: Slug, mac: string, vtpe: bool, field: Field): Item {
    Item(Config(slug, field),
         Entity(State(slug, field),
                if field.Outlet? then Some(field.n) else None,
                [BridgeStatus, State(slug, Availability)],
                mac,
                if vtpe then Some("1.0.106") else None))
  }

  function Declarations(slug: Slug, mac: string, vtpe: bool, fields: seq<Field>): (items: seq<Item>)
    ensures |items| == |fields|
    ensures forall i :: 0 <= i < |items| ==> items[i] == Declaration(slug, mac, vtpe, fields[i])
  {
    seq(|fields|, i requires 0 <= i < |fields| => Declaration(slug, mac, vtpe, fields[i]))
  }

  /** The configs in the order they are sent: outlets 1-4 before "All", and each total before its parts. */
  function DeclaredFields(vtpe: bool): seq<Field> {
    OUTLETS[1..] + OUTLETS[..1] + POWERS + if vtpe then VTPE else []
  }

  method BuildDiscovery(slug: Slug, mac: string, vtpe: bool) returns (out: seq<Item>)
    ensures out == Declarations(slug, mac, vtpe, DeclaredFields(vtpe))
    ensures |out| == if vtpe then 20 else 10
  {
    out := [];
    for n := 1 to 5
      invariant out == Declarations(slug, mac, vtpe, OUTLETS[1..n])
    {
      out := out + [Declaration(slug, mac, vtpe, Outlet(n))];
    }
    out := out + [Declaration(slug, mac, vtpe, Outlet(0))];
    out := out + [Declaration(slug, mac, vtpe, Power(0))];
    for n := 1 to 5
      invariant out == Declarations(slug, mac, vtpe, OUTLETS[1..] + OUTLETS[..1] + POWERS[..n])
    {
      out := out + [Declaration(slug, mac, vtpe, Power(n))];
    }
    if vtpe {
      ghost var common := OUTLETS[1..] + OUTLETS[..1] + POWERS;
      out := out + [Declaration(slug, mac, vtpe, Voltage)];
      for n := 1 to 5
        invariant out == Declarations(slug, mac, vtpe, common + [Voltage] + TEMPS[..n - 1])
      {
        out := out + [Declaration(slug, mac, vtpe, Temp(n))];
      }
      out := out + [Declaration(slug, mac, vtpe, Energy(0))];
      for n := 1 to 5
        invariant out == Declarations(slug, mac, vtpe, common + [Voltage] + TEMPS + ENERGIES[..n])
      {
        out := out + [Declaration(slug, mac, vtpe, Energy(n))];
      }
      assert common + [Voltage] + TEMPS + ENERGIES == DeclaredFields(vtpe);
    }
  }

  /** Exactly the fields that can be published are declared, and no config topic is used twice. */
  lemma DeclaredExactlyWhatIsPublished(vtpe: bool)
    ensures forall field :: field in DeclaredFields(vtpe) <==> field in BASE || (vtpe && field in VTPE)
    ensures forall i, j :: 0 <= i < j < |DeclaredFields(vtpe)| ==> DeclaredFields(vtpe)[i] != DeclaredFields(vtpe)[j]
  {
    var fields := DeclaredFields(vtpe);
    forall field | field in BASE || (vtpe && field in VTPE) ensures field in fields {
      if field in OUTLETS {
        if field == Outlet(0) { assert fields[4] == field; } else { assert fields[field.n - 1] == field; }
      } else if field in POWERS {
        assert fields[5 + field.n] == field;
      } else if field in TEMPS {
        assert fields[10 + field.n] == field;
      } else if field in ENERGIES {
        assert fields[15 + field.n] == field;
      } else {
        assert fields[10] == Voltage;
      }
    }
  }

  // ---- topics as texts --------------------------------------------------------

  function ChannelText(n: nat): string
    requires n < 5
  {
    [(('0' as int) + n) as char]
  }

  function TotalOr(n: nat): string
    requires n < 5
  {
    if n == 0 then "total" else ChannelText(n)
  }

  predicate Published(field: Field) {
    field.Voltage? || field.Availability? || field.n < 5
  }

  function FieldText(field: Field): string
    requires Published(field)
  {
    match field
    case Outlet(n) => "outlet/" + ChannelText(n) + "/state"
    case Power(n) => "power/" + TotalOr(n)
    case Voltage => "voltage"
    case Temp(n) => "temp/" + ChannelText(n)
    case Energy(n) => "energy/" + TotalOr(n)
    case Availability => "availability"
  }

  function StateTopicText(prefix: string, slug: Slug, field: Field): string
    requires Published(field)
  {
    prefix + "/" + slug + "/" + FieldText(field)
  }

  /** The topics as they are on the wire. */
  lemma StateTopicTexts(prefix: string, slug: Slug)
    ensures StateTopicText(prefix, slug, Outlet(0)) == prefix + "/" + slug + "/" + "outlet/0/state"
    ensures StateTopicText(prefix, slug, Outlet(4)) == prefix + "/" + slug + "/" + "outlet/4/state"
    ensures StateTopicText(prefix, slug, Power(0)) == prefix + "/" + slug + "/" + "power/total"
    ensures StateTopicText(prefix, slug, Power(4)) == prefix + "/" + slug + "/" + "power/4"
    ensures StateTopicText(prefix, slug, Voltage) == prefix + "/" + slug + "/" + "voltage"
    ensures StateTopicText(prefix, slug, Temp(4)) == prefix + "/" + slug + "/" + "temp/4"
    ensures StateTopicText(prefix, slug, Energy(0)) == prefix + "/" + slug + "/" + "energy/total"
    ensures StateTopicText(prefix, slug, Energy(4)) == prefix + "/" + slug + "/" + "energy/4"
    ensures StateTopicText(prefix, slug, Availability) == prefix + "/" + slug + "/" + "availability"
  {
    assert "outlet/" + "0" + "/state" == "outlet/0/state" && "outlet/" + "4" + "/state" == "outlet/4/state";
    assert "power/" + "total" == "power/total" && "power/" + "4" == "power/4";
    assert "temp/" + "4" == "temp/4";
    assert "energy/" + "total" == "energy/total" && "energy/" + "4" == "energy/4";
    assert ChannelText(0) == "0" && ChannelText(4) == "4";
  }

  const BRIDGE_STATUS_SUFFIX := "/bridge/status"

  /** The field a suffix stands for, found from two of its characters. */
  function FieldOf(text: string): Field
    requires |text| >= 6
  {
    var digit := (c: char) => if '0' <= c <= '4' then (c as int) - ('0' as int) else 0;
    if text[0] == 'o' then Outlet(if |text| > 7 then digit(text[7]) else 0)
    else if text[0] == 'p' then Power(if |text| > 6 then digit(text[6]) else 0)
    else if text[0] == 'v' then Voltage
    else if text[0] == 't' then Temp(digit(text[5]))
    else if text[0] == 'e' then Energy(if |text| > 7 then digit(text[7]) else 0)
    else Availability
  }

  lemma FieldTextReadable(field: Field)
    requires Published(field)
    ensures |FieldText(field)| >= 6 && FieldOf(FieldText(field)) == field
  {
  }

  /** The topic datatype loses nothing: for twelve-character slugs different topics are different
      texts, and none of them is the bridge's own status topic. */
  lemma StateTopicsDistinct(prefix: string, slug: Slug, field: Field, slug': Slug, field': Field)
    requires |slug| == |slug'| == 12
    requires Published(field) && Published(field')
    ensures StateTopicText(prefix, slug, field) == StateTopicText(prefix, slug', field')
       <==> slug == slug' && field == field'
    ensures StateTopicText(prefix, slug, field) != prefix + BRIDGE_STATUS_SUFFIX
  {
    var a, b := StateTopicText(prefix, slug, field), StateTopicText(prefix, slug', field');
    var cut := |prefix| + 1;
    FieldTextReadable(field);
    FieldTextReadable(field');
    hide FieldText, FieldOf, Published;
    assert a[cut..cut + 12] == slug && a[cut + 13..] == FieldText(field);
    assert b[cut..cut + 12] == slug' && b[cut + 13..] == FieldText(field');
    assert |a| > |prefix + BRIDGE_STATUS_SUFFIX|;
  }
}

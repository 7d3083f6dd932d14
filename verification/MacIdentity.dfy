/** Which texts are MAC addresses, and the slug a device gets from one (bridge/ha_discovery.py). */
module MacIdentity {
  import opened Options
  import opened Text

  /** A canonical MAC: twelve lower-case hexadecimal digits. */
  predicate Canonical(s: string) {
    |s| == 12 && forall i :: 0 <= i < 12 ==> IsHex(s[i]) && LowerChar(s[i]) == s[i]
  }

  predicate IsBareMac(s: string) {
    |s| == 12 && AllHex(s)
  }

  /** Six two-digit octets joined by one consistent ':' or '-'. */
  predicate IsSeparatedMac(s: string) {
    && |s| == 17
    && (s[2] == ':' || s[2] == '-')
    && forall i :: 0 <= i < 17 ==> if i % 3 == 2 then s[i] == s[2] else IsHex(s[i])
  }

  /** str.replace(":", "").replace("-", "") */
  function DropSeparators(s: string): string {
    if s == "" then ""
    else (if s[0] == ':' || s[0] == '-' then "" else [s[0]]) + DropSeparators(s[1..])
  }

  function CleanMac(value: Option<string>): Option<string> {
    if value == None || value == Some("") then None
    else
      var s := Strip(value.value);
      if IsBareMac(s) then Some(Lower(s))
      else if IsSeparatedMac(s) then Some(Lower(DropSeparators(s)))
      else None
  }

  /** The octets of a bare MAC with `sep` between them. */
  function Separated(mac: string, sep: char): string {
    if |mac| <= 2 then mac else mac[..2] + [sep] + Separated(mac[2..], sep)
  }

  lemma {:induction false} SeparatedAt(mac: string, sep: char, i: nat)
    requires |mac| >= 2 && |mac| % 2 == 0 && i < 3 * (|mac| / 2) - 1
    ensures |Separated(mac, sep)| == 3 * (|mac| / 2) - 1
    ensures Separated(mac, sep)[i] == if i % 3 == 2 then sep else mac[2 * (i / 3) + i % 3]
  {
    if |mac| > 2 {
      SeparatedAt(mac[2..], sep, if i < 3 then 0 else i - 3);
    }
  }

  lemma {:induction false} DropConcat(a: string, b: string)
    ensures DropSeparators(a + b) == DropSeparators(a) + DropSeparators(b)
  {
    if a == "" {
      assert a + b == b;
    } else {
      assert (a + b)[1..] == a[1..] + b;
      DropConcat(a[1..], b);
    }
  }

  lemma {:induction false} DropNothing(s: string)
    requires AllHex(s)
    ensures DropSeparators(s) == s
  {
    if s != "" {
      DropNothing(s[1..]);
      assert s == [s[0]] + s[1..];
    }
  }

  lemma {:induction false} DropSeparatedMac(mac: string, sep: char)
    requires AllHex(mac) && (sep == ':' || sep == '-')
    ensures DropSeparators(Separated(mac, sep)) == mac
  {
    if |mac| <= 2 {
      DropNothing(mac);
    } else {
      var rest := Separated(mac[2..], sep);
      DropConcat(mac[..2] + [sep], rest);
      DropConcat(mac[..2], [sep]);
      DropNothing(mac[..2]);
      assert DropSeparators([sep]) == "";
      DropSeparatedMac(mac[2..], sep);
      assert mac == mac[..2] + mac[2..];
    }
  }

  /** The digits of a separated MAC, read back out of it. */
  function Digits(s: string): (mac: string)
    requires IsSeparatedMac(s)
    ensures IsBareMac(mac)
  {
    seq(12, i requires 0 <= i < 12 => s[i + i / 2])
  }

  lemma SeparatedDigits(s: string)
    requires IsSeparatedMac(s)
    ensures Separated(Digits(s), s[2]) == s
  {
    SeparatedAt(Digits(s), s[2], 0);
    forall i | 0 <= i < 17 ensures Separated(Digits(s), s[2])[i] == s[i] {
      SeparatedAt(Digits(s), s[2], i);
    }
  }

  lemma LowerCanonical(s: string)
    requires IsBareMac(s)
    ensures Canonical(Lower(s))
  {
  }

  /** A MAC that is accepted comes out canonical, whatever its shape was. */
  lemma CleanMacCanonical(value: Option<string>)
    ensures CleanMac(value).Some? ==> Canonical(CleanMac(value).value)
  {
    if CleanMac(value).Some? {
      var s := Strip(value.value);
      if IsBareMac(s) {
        LowerCanonical(s);
      } else {
        SeparatedDigits(s);
        DropSeparatedMac(Digits(s), s[2]);
        LowerCanonical(Digits(s));
      }
    }
  }

  /** Cleaning a canonical MAC changes nothing. */
  lemma CleanMacFixed(mac: string)
    requires Canonical(mac)
    ensures CleanMac(Some(mac)) == Some(mac)
  {
    StripTrimmed(mac);
    assert Lower(mac) == mac;
  }

  lemma CleanUpper(mac: string)
    requires IsBareMac(mac)
    ensures CleanMac(Some(Upper(mac))) == Some(Lower(mac))
  {
    StripTrimmed(Upper(mac));
    assert Lower(Upper(mac)) == Lower(mac);
  }

  lemma CleanSeparated(mac: string, sep: char, left: string, right: string)
    requires IsBareMac(mac) && (sep == ':' || sep == '-')
    requires forall i :: 0 <= i < |left| ==> IsSpace(left[i])
    requires forall i :: 0 <= i < |right| ==> IsSpace(right[i])
    ensures CleanMac(Some(left + Separated(mac, sep) + right)) == Some(Lower(mac))
  {
    var s := Separated(mac, sep);
    SeparatedAt(mac, sep, 0);
    forall i | 0 <= i < 17 ensures if i % 3 == 2 then s[i] == sep else IsHex(s[i]) {
      SeparatedAt(mac, sep, i);
    }
    StripPadded(left, s, right);
    DropSeparatedMac(mac, sep);
  }

  /** One device, one identity: the bare, colon and hyphen shapes of a MAC, in either case and with
      whitespace around them, all clean to the same canonical text. */
  lemma SameMacInEveryShape(mac: string, left: string, right: string)
    requires IsBareMac(mac)
    requires forall i :: 0 <= i < |left| ==> IsSpace(left[i])
    requires forall i :: 0 <= i < |right| ==> IsSpace(right[i])
    ensures CleanMac(Some(left + mac + right)) == Some(Lower(mac))
    ensures CleanMac(Some(left + Separated(mac, ':') + right)) == Some(Lower(mac))
    ensures CleanMac(Some(left + Separated(mac, '-') + right)) == Some(Lower(mac))
    ensures CleanMac(Some(Upper(mac))) == Some(Lower(mac))
    ensures CleanMac(Some(Lower(mac))) == Some(Lower(mac))
  {
    StripPadded(left, mac, right);
    CleanSeparated(mac, ':', left, right);
    CleanSeparated(mac, '-', left, right);
    CleanUpper(mac);
    LowerCanonical(mac);
    CleanMacFixed(Lower(mac));
  }

  /** Nothing else is a MAC: what is accepted is one of the three shapes of the canonical result,
      so an arbitrary label is never coerced into an identity. */
  lemma OnlyMacShapes(value: string, mac: string)
    requires CleanMac(Some(value)) == Some(mac)
    ensures exists bare: string :: IsBareMac(bare) && Lower(bare) == mac
              && Strip(value) in {bare, Separated(bare, ':'), Separated(bare, '-')}
  {
    var s := Strip(value);
    if !IsBareMac(s) {
      SeparatedDigits(s);
      DropSeparatedMac(Digits(s), s[2]);
      assert IsBareMac(Digits(s));
    }
  }

  /** A SHA-256 digest in hexadecimal; which one is left open. */
  type Digest = s: string | |s| == 64 && AllHex(s) witness seq(64, i => '0')

  function DeviceSlug(clientId: string, mac: Option<string>, sha256: string -> Digest): string {
    match CleanMac(mac)
    case Some(c) => c
    case None => "d" + sha256(clientId)[..12]
  }

  /** The hash slug is used exactly when there is no clean MAC, and can never be taken for a MAC slug. */
  lemma SlugKind(clientId: string, mac: Option<string>, sha256: string -> Digest)
    ensures Canonical(DeviceSlug(clientId, mac, sha256)) <==> CleanMac(mac).Some?
    ensures |DeviceSlug(clientId, mac, sha256)| == if CleanMac(mac).Some? then 12 else 13
  {
    CleanMacCanonical(mac);
  }

  /** A hash slug begins with the letter d, and two client_ids share one exactly if the first twelve digits of their
      digests agree. */
  lemma HashSlugs(a: string, b: string, sha256: string -> Digest)
    ensures DeviceSlug(a, None, sha256)[0] == 'd'
    ensures DeviceSlug(a, None, sha256) == DeviceSlug(b, None, sha256) <==> sha256(a)[..12] == sha256(b)[..12]
  {
    assert DeviceSlug(a, None, sha256)[1..] == sha256(a)[..12] && DeviceSlug(b, None, sha256)[1..] == sha256(b)[..12];
  }
}

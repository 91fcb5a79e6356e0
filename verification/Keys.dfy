/** Object keys as text: decimal account ids and the hyphenated lower-case UUID
    form of section 4 of RFC 9562. */
module Keys {
  import opened Wrappers

  const UUIDS: nat := 0x1_0000_0000_0000_0000_0000_0000_0000_0000

  type Uuid = u: nat | u < UUIDS

  function Decimal(n: nat): (text: string)
  {
    if n < 10 then [('0' as int + n) as char]
    else Decimal(n / 10) + [('0' as int + n % 10) as char]
  }

  function HexDigit(d: nat): (c: char)
    requires d < 16
  {
    if d < 10 then ('0' as int + d) as char else ('a' as int + (d - 10)) as char
  }

  function Hex(n: nat, width: nat): (text: string)
    ensures |text| == width
  {
    if width == 0 then "" else Hex(n / 16, width - 1) + [HexDigit(n % 16)]
  }

  function UuidText(u: Uuid): (text: string)
    ensures |text| == 36
  {
    var h := Hex(u, 32);
    h[..8] + "-" + h[8..12] + "-" + h[12..16] + "-" + h[16..20] + "-" + h[20..]
  }

  function RawKey(account: nat, doc: Uuid): (key: string)
  {
    "raw/" + Decimal(account) + "/" + UuidText(doc) + ".pdf"
  }

  function ArtifactKey(account: nat, doc: Uuid): (key: string)
  {
    "artifacts/" + Decimal(account) + "/" + UuidText(doc) + ".md"
  }

  // ------------------------------------------------------------ reading them back

  /** Digits are decimal or lower-case hexadecimal. */
  function DigitValue(c: char): (d: Option<nat>)
  {
    if '0' <= c <= '9' then Some(c as int - '0' as int)
    else if 'a' <= c <= 'f' then Some(c as int - 'a' as int + 10)
    else None
  }

  function ReadNumber(text: string, base: nat): (n: Option<nat>)
  {
    if text == "" then Some(0)
    else
      var rest, last := ReadNumber(text[..|text| - 1], base), DigitValue(text[|text| - 1]);
      if rest.Some? && last.Some? && last.value < base then Some(rest.value * base + last.value) else None
  }

  /** Hyphens after 8, 12, 16 and 20 of 32 hexadecimal digits. */
  function ReadUuid(text: string): (u: Option<nat>)
  {
    if |text| == 36 && text[8] == '-' && text[13] == '-' && text[18] == '-' && text[23] == '-' then
      ReadNumber(text[..8] + text[9..13] + text[14..18] + text[19..23] + text[24..], 16)
    else None
  }

  /** An account number without leading zeros and an id, between a prefix and a suffix. */
  function ReadKey(prefix: string, suffix: string, key: string): (r: Option<(nat, nat)>)
  {
    var p, q := |prefix|, |key| - |suffix| - 37;
    if p < q && key[..p] == prefix && key[q] == '/' && key[q + 37..] == suffix && (key[p] != '0' || q == p + 1) then
      match (ReadNumber(key[p..q], 10), ReadUuid(key[q + 1..q + 37]))
      case (Some(account), Some(id)) => Some((account, id))
      case _ => None
    else None
  }

  lemma {:induction false} DecimalReadsBack(n: nat)
    ensures ReadNumber(Decimal(n), 10) == Some(n)
    ensures Decimal(n) != "" && (Decimal(n)[0] == '0' ==> Decimal(n) == "0")
  {
    var s := Decimal(n);
    if n < 10 {
      assert s[..|s| - 1] == "";
    } else {
      DecimalReadsBack(n / 10);
      assert s[..|s| - 1] == Decimal(n / 10) && DigitValue(s[|s| - 1]) == Some(n % 10);
    }
  }

  function Power16(k: nat): (p: nat)
  {
    if k == 0 then 1 else 16 * Power16(k - 1)
  }

  lemma Power16Of32()
    ensures Power16(32) == UUIDS
  {
    assert Power16(8) == 0x1_0000_0000;
    assert Power16(16) == 0x1_0000_0000_0000_0000;
    assert Power16(24) == 0x1_0000_0000_0000_0000_0000_0000;
  }

  lemma {:induction false} HexReadsBack(n: nat, width: nat)
    requires n < Power16(width)
    ensures ReadNumber(Hex(n, width), 16) == Some(n)
  {
    if width > 0 {
      var s := Hex(n, width);
      assert s[..width - 1] == Hex(n / 16, width - 1) && DigitValue(s[width - 1]) == Some(n % 16);
      HexReadsBack(n / 16, width - 1);
    }
  }

  /** The text of an id has its hyphens in place, and its digits are the id. */
  lemma UuidTextReadsBack(u: Uuid)
    ensures ReadUuid(UuidText(u)) == Some(u)
  {
    Power16Of32();
    HexReadsBack(u, 32);
    hide Hex, ReadNumber, Power16;
    Ungrouped(Hex(u, 32));
  }

  lemma Ungrouped(h: string)
    requires |h| == 32
    ensures var s := h[..8] + "-" + h[8..12] + "-" + h[12..16] + "-" + h[16..20] + "-" + h[20..];
            && |s| == 36 && s[8] == s[13] == s[18] == s[23] == '-'
            && s[..8] + s[9..13] + s[14..18] + s[19..23] + s[24..] == h
  {
    var s := h[..8] + "-" + h[8..12] + "-" + h[12..16] + "-" + h[16..20] + "-" + h[20..];
    assert s[..8] == h[..8] && s[9..13] == h[8..12] && s[14..18] == h[12..16] && s[19..23] == h[16..20] && s[24..] == h[20..];
    assert h == h[..8] + h[8..12] + h[12..16] + h[16..20] + h[20..];
  }

  /** The account and the document can be read off a key. */
  lemma KeyReadsBack(prefix: string, account: nat, id: Uuid, suffix: string)
    ensures ReadKey(prefix, suffix, prefix + Decimal(account) + "/" + UuidText(id) + suffix) == Some((account, id))
  {
    DecimalReadsBack(account);
    UuidTextReadsBack(id);
    hide *;
    var head, tail := Decimal(account), UuidText(id);
    var key := prefix + head + "/" + tail + suffix;
    var p, q := |prefix|, |key| - |suffix| - 37;
    assert q == p + |head|;
    assert key[..p] == prefix && key[p..q] == head && key[q] == '/';
    assert key[q + 1..q + 37] == tail && key[q + 37..] == suffix;
    assert key[p] == head[0];
    ReadsParts(prefix, suffix, key, head, tail);
  }

  lemma ReadsParts(prefix: string, suffix: string, key: string, head: string, tail: string)
    requires head != "" && (head[0] == '0' ==> head == "0") && ReadNumber(head, 10).Some? && ReadUuid(tail).Some?
    requires var p, q := |prefix|, |key| - |suffix| - 37;
             && q == p + |head| && key[..p] == prefix && key[p..q] == head && key[q] == '/'
             && key[q + 1..q + 37] == tail && key[q + 37..] == suffix && key[p] == head[0]
    ensures ReadKey(prefix, suffix, key) == Some((ReadNumber(head, 10).value, ReadUuid(tail).value))
  {
    hide ReadNumber, ReadUuid;
  }

  /** So raw keys are `raw/<account>/<id>.pdf` and artifact keys `artifacts/<account>/<id>.md`, in decimal and in the
      hyphenated form. */
  lemma KeysReadBack(account: nat, id: Uuid)
    ensures ReadKey("raw/", ".pdf", RawKey(account, id)) == Some((account, id))
    ensures ReadKey("artifacts/", ".md", ArtifactKey(account, id)) == Some((account, id))
  {
    KeyReadsBack("raw/", account, id, ".pdf");
    KeyReadsBack("artifacts/", account, id, ".md");
  }

  lemma UuidTextInjective(a: Uuid, b: Uuid)
    requires UuidText(a) == UuidText(b)
    ensures a == b
  {
    UuidTextReadsBack(a);
    UuidTextReadsBack(b);
  }

  lemma RawKeyInjective(a: nat, d: Uuid, b: nat, e: Uuid)
    ensures RawKey(a, d) == RawKey(b, e) <==> a == b && d == e
  {
    KeysReadBack(a, d);
    KeysReadBack(b, e);
  }

  lemma ArtifactKeyInjective(a: nat, d: Uuid, b: nat, e: Uuid)
    ensures ArtifactKey(a, d) == ArtifactKey(b, e) <==> a == b && d == e
  {
    KeysReadBack(a, d);
    KeysReadBack(b, e);
  }

  lemma KeysDisjoint(a: nat, d: Uuid, b: nat, e: Uuid)
    ensures RawKey(a, d) != ArtifactKey(b, e)
  {
    assert RawKey(a, d)[0] == 'r' && ArtifactKey(b, e)[0] == 'a';
  }
}

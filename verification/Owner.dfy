/** JavaScript strings as sequences of UTF-16 code units, and the percent-encoding of
    encodeURIComponent (section 19.2.6.5 of ECMA-262, section 2.1 of RFC 3986). */
module UriComponents {
  import opened Collections

  type CodeUnit = x: int | 0 <= x < 0x1_0000

  type JsString = seq<CodeUnit>

  type Octet = x: int | 0 <= x < 256

  const PERCENT: CodeUnit := 37
  const COLON: CodeUnit := 58

  predicate IsLead(c: CodeUnit) { 0xD800 <= c < 0xDC00 }

  predicate IsTrail(c: CodeUnit) { 0xDC00 <= c < 0xE000 }

  ghost predicate PairedAt(s: JsString, i: nat)
    requires i < |s|
  {
    && (IsLead(s[i]) ==> i + 1 < |s| && IsTrail(s[i + 1]))
    && (IsTrail(s[i]) ==> 0 < i && IsLead(s[i - 1]))
  }

  /** No surrogate stands without its partner. */
  ghost predicate WellFormed(s: JsString) {
    forall i :: 0 <= i < |s| ==> PairedAt(s, i)
  }

  /** Letters, digits and - _ . ! ~ * ' ( ) stay as they are. */
  predicate IsUnescaped(c: CodeUnit) {
    || 48 <= c <= 57 || 65 <= c <= 90 || 97 <= c <= 122
    || c in {45, 95, 46, 33, 126, 42, 39, 40, 41}
  }

  function CodePointOf(lead: CodeUnit, trail: CodeUnit): (cp: int)
    requires IsLead(lead) && IsTrail(trail)
    ensures 0x1_0000 <= cp < 0x11_0000
  {
    0x1_0000 + (lead - 0xD800) * 0x400 + (trail - 0xDC00)
  }

  /** The UTF-8 octets of a code point. */
  function Octets(cp: int): (os: seq<Octet>)
    requires 0 <= cp < 0x11_0000
    ensures 1 <= |os| <= 4
  {
    var a := cp / 64;
    var b := a / 64;
    if cp < 0x80 then [cp]
    else if cp < 0x800 then [0xC0 + a, 0x80 + cp % 64]
    else if cp < 0x1_0000 then [0xE0 + b, 0x80 + a % 64, 0x80 + cp % 64]
    else [0xF0 + b / 64, 0x80 + b % 64, 0x80 + a % 64, 0x80 + cp % 64]
  }

  function HexDigit(d: int): (c: CodeUnit)
    requires 0 <= d < 16
    ensures 48 <= c <= 57 || 65 <= c <= 70
  {
    if d < 10 then 48 + d else 55 + d
  }

  function Percent(octets: seq<Octet>): (t: JsString)
    ensures |t| == 3 * |octets|
    ensures COLON !in t
  {
    if octets == [] then []
    else [PERCENT, HexDigit(octets[0] / 16), HexDigit(octets[0] % 16)] + Percent(octets[1..])
  }

  function Prepend(a: JsString, rest: Option<JsString>): Option<JsString> {
    if rest.None? then None else Some(a + rest.value)
  }

  /** encodeURIComponent; None stands for the URIError a lone surrogate raises. */
  function Encode(s: JsString): (t: Option<JsString>)
    ensures t.Some? ==> COLON !in t.value
  {
    if s == [] then Some([])
    else if IsUnescaped(s[0]) then Prepend([s[0]], Encode(s[1..]))
    else if IsLead(s[0]) then
      if |s| < 2 || !IsTrail(s[1]) then None
      else Prepend(Percent(Octets(CodePointOf(s[0], s[1]))), Encode(s[2..]))
    else if IsTrail(s[0]) then None
    else Prepend(Percent(Octets(s[0])), Encode(s[1..]))
  }

  /** What section 19.2.6.5 calls uriUnescaped, by the characters themselves. */
  predicate IsPlain(c: CodeUnit) {
    && c < 128
    && var ch := c as char;
       || 'a' <= ch <= 'z' || 'A' <= ch <= 'Z' || '0' <= ch <= '9'
       || ch in {'-', '_', '.', '!', '~', '*', '\'', '(', ')'}
  }

  /** An encoding is never shorter than what it encodes, and as long only if everything in that is plain. */
  lemma {:induction false} EncodeGrows(s: JsString)
    requires Encode(s).Some?
    ensures |Encode(s).value| >= |s|
    ensures |Encode(s).value| == |s| ==> forall c :: c in s ==> IsPlain(c)
    decreases |s|
  {
    if s != [] {
      if IsLead(s[0]) {
        EncodeGrows(s[2..]);
      } else {
        EncodeGrows(s[1..]);
      }
    }
  }

  /** A string is its own encoding exactly if it consists of letters, digits and - _ . ! ~ * ' ( ). */
  lemma {:induction false} UnchangedIffPlain(s: JsString)
    ensures Encode(s) == Some(s) <==> forall c :: c in s ==> IsPlain(c)
    decreases |s|
  {
    if Encode(s) == Some(s) {
      EncodeGrows(s);
    } else if s != [] && IsPlain(s[0]) {
      UnchangedIffPlain(s[1..]);
      assert s == [s[0]] + s[1..];
    }
  }

  /** Each octet is spelled as a percent sign and two upper-case hexadecimal digits. */
  lemma {:induction false} PercentSpells(os: seq<Octet>, k: nat)
    requires k < |os|
    ensures Percent(os)[3 * k] == '%' as int
    ensures Percent(os)[3 * k + 1] == "0123456789ABCDEF"[os[k] / 16] as int
    ensures Percent(os)[3 * k + 2] == "0123456789ABCDEF"[os[k] % 16] as int
  {
    if k == 0 {
      HexReads(os[0] / 16);
      HexReads(os[0] % 16);
    } else {
      PercentSpells(os[1..], k - 1);
      assert Percent(os)[3..] == Percent(os[1..]);
    }
  }

  lemma HexReads(d: int)
    requires 0 <= d < 16
    ensures HexDigit(d) == "0123456789ABCDEF"[d] as int
  {
  }

  lemma EncodeUnit(c: CodeUnit)
    requires !IsLead(c) && !IsTrail(c) && !IsUnescaped(c)
    ensures Encode([c]) == Some(Percent(Octets(c)))
  {
    var s: JsString := [c];
    assert s[1..] == [];
    assert Percent(Octets(c)) + [] == Percent(Octets(c));
  }

  /** One character for each number of octets, as RFC 3629 has them. */
  lemma KnownEncodings()
    ensures Encode([0x2F]) == Some(Percent([0x2F])) && Encode([0xE9]) == Some(Percent([0xC3, 0xA9]))
    ensures Encode([0x20AC]) == Some(Percent([0xE2, 0x82, 0xAC]))
    ensures Encode([0xD83D, 0xDE00]) == Some(Percent([0xF0, 0x9F, 0x98, 0x80]))
  {
    hide Percent;
    EncodeUnit(0x2F);
    EncodeUnit(0xE9);
    EncodeUnit(0x20AC);
    var pair: JsString := [0xD83D, 0xDE00];
    assert pair[2..] == [];
    assert Percent([0xF0, 0x9F, 0x98, 0x80]) + [] == Percent([0xF0, 0x9F, 0x98, 0x80]);
  }

  // Reading an encoding back.

  function HexValue(c: CodeUnit): int {
    if 48 <= c <= 57 then c - 48 else if 65 <= c <= 70 then c - 55 else 0
  }

  function OctetAt(t: JsString, k: nat): int
    requires 3 * k + 2 < |t|
  {
    HexValue(t[3 * k + 1]) * 16 + HexValue(t[3 * k + 2])
  }

  function OctetCount(first: int): nat {
    if first < 0x80 then 1 else if first < 0xE0 then 2 else if first < 0xF0 then 3 else 4
  }

  function FromOctets(os: seq<int>): int
    requires 1 <= |os| <= 4
  {
    if |os| == 1 then os[0]
    else if |os| == 2 then (os[0] - 0xC0) * 64 + (os[1] - 0x80)
    else if |os| == 3 then (os[0] - 0xE0) * 4096 + (os[1] - 0x80) * 64 + (os[2] - 0x80)
    else (os[0] - 0xF0) * 262144 + (os[1] - 0x80) * 4096 + (os[2] - 0x80) * 64 + (os[3] - 0x80)
  }

  /** The first n escapes of t. */
  function OctetsAt(t: JsString, n: nat): (os: seq<int>)
    requires 3 * n <= |t|
    ensures |os| == n
  {
    seq(n, k requires 0 <= k < n => OctetAt(t, k))
  }

  function Units(cp: int): Option<JsString> {
    if 0 <= cp < 0x1_0000 then Some([cp])
    else if 0x1_0000 <= cp < 0x11_0000 then
      Some([0xD800 + (cp - 0x1_0000) / 0x400, 0xDC00 + (cp - 0x1_0000) % 0x400])
    else None
  }

  function Decode(t: JsString): Option<JsString>
    decreases |t|
  {
    if t == [] then Some([])
    else if t[0] != PERCENT then Prepend([t[0]], Decode(t[1..]))
    else if |t| < 3 then None
    else
      var n := OctetCount(OctetAt(t, 0));
      if |t| < 3 * n then None
      else
        var u := Units(FromOctets(OctetsAt(t, n)));
        if u.None? then None else Prepend(u.value, Decode(t[3 * n..]))
  }

  lemma {:induction false} EscapesReadBack(octets: seq<Octet>, rest: JsString, k: nat)
    requires k < |octets|
    ensures OctetAt(Percent(octets) + rest, k) == octets[k]
  {
    var head := [PERCENT, HexDigit(octets[0] / 16), HexDigit(octets[0] % 16)];
    var tail := Percent(octets[1..]) + rest;
    var t := Percent(octets) + rest;
    assert t == head + tail;
    if k > 0 {
      EscapesReadBack(octets[1..], rest, k - 1);
      assert t[3 * k + 1] == tail[3 * (k - 1) + 1] && t[3 * k + 2] == tail[3 * (k - 1) + 2];
    }
  }

  lemma OctetsDetermine(cp: int)
    requires 0 <= cp < 0x11_0000
    ensures OctetCount(Octets(cp)[0]) == |Octets(cp)|
    ensures FromOctets(Octets(cp)) == cp
  {
  }

  lemma CodePointReadBack(os: seq<Octet>, rest: JsString)
    requires os != []
    ensures (Percent(os) + rest)[0] == PERCENT
    ensures OctetsAt(Percent(os) + rest, |os|) == os
    ensures OctetAt(Percent(os) + rest, 0) == os[0]
    ensures (Percent(os) + rest)[3 * |os|..] == rest
  {
    forall k | 0 <= k < |os|
      ensures OctetAt(Percent(os) + rest, k) == os[k]
    {
      EscapesReadBack(os, rest, k);
    }
  }

  lemma DecodeOne(cp: int, rest: JsString)
    requires 0 <= cp < 0x11_0000
    ensures Decode(Percent(Octets(cp)) + rest) == Prepend(Units(cp).value, Decode(rest))
  {
    CodePointReadBack(Octets(cp), rest);
    OctetsDetermine(cp);
  }

  lemma UnitsOfPair(lead: CodeUnit, trail: CodeUnit)
    requires IsLead(lead) && IsTrail(trail)
    ensures Units(CodePointOf(lead, trail)) == Some([lead, trail])
  {
  }

  lemma DecodeUnescaped(c: CodeUnit, rest: JsString)
    requires IsUnescaped(c)
    ensures Decode([c] + rest) == Prepend([c], Decode(rest))
  {
    assert ([c] + rest)[1..] == rest;
  }

  lemma DecodeEmpty()
    ensures Decode([]) == Some([])
  {
  }

  /** What encodeURIComponent produces decodes to what it was given. */
  lemma {:induction false} RoundTrip(s: JsString)
    requires Encode(s).Some?
    ensures Decode(Encode(s).value) == Some(s)
  {
    hide Decode, Percent, Octets, CodePointOf, IsUnescaped;
    if s == [] {
      DecodeEmpty();
    } else if IsUnescaped(s[0]) {
      RoundTrip(s[1..]);
      DecodeUnescaped(s[0], Encode(s[1..]).value);
      assert s == [s[0]] + s[1..];
    } else if IsLead(s[0]) {
      RoundTrip(s[2..]);
      DecodeOne(CodePointOf(s[0], s[1]), Encode(s[2..]).value);
      UnitsOfPair(s[0], s[1]);
      assert s == [s[0], s[1]] + s[2..];
    } else {
      RoundTrip(s[1..]);
      DecodeOne(s[0], Encode(s[1..]).value);
      assert s == [s[0]] + s[1..];
    }
  }

  lemma WellFormedDrop(s: JsString, k: nat)
    requires k <= |s|
    requires k == 0 || !IsLead(s[k - 1])
    requires forall i :: 0 <= i < k ==> PairedAt(s, i)
    ensures WellFormed(s) <==> WellFormed(s[k..])
  {
    var t := s[k..];
    if WellFormed(t) {
      forall i | 0 <= i < |s|
        ensures PairedAt(s, i)
      {
        if i >= k {
          assert PairedAt(t, i - k);
        }
      }
    }
    if WellFormed(s) {
      forall i | 0 <= i < |t|
        ensures PairedAt(t, i)
      {
        assert PairedAt(s, i + k);
      }
    }
  }

  /** The URIError is raised exactly on strings with a lone surrogate. */
  lemma {:induction false} EncodableIffWellFormed(s: JsString)
    ensures Encode(s).Some? <==> WellFormed(s)
  {
    if s == [] {
    } else if IsLead(s[0]) {
      if |s| >= 2 && IsTrail(s[1]) {
        EncodableIffWellFormed(s[2..]);
        assert !IsLead(s[1]) && !IsTrail(s[0]);
        WellFormedDrop(s, 2);
      } else {
        assert !PairedAt(s, 0);
      }
    } else if IsTrail(s[0]) {
      assert !PairedAt(s, 0);
    } else {
      EncodableIffWellFormed(s[1..]);
      WellFormedDrop(s, 1);
    }
  }
}

/** Owner principals and their lane keys (services/orchestrator/src/types/owner.ts). */
module Owner {
  import opened Collections
  import opened UriComponents

  datatype OwnerPrincipal = OwnerPrincipal(tenantId: JsString, subjectId: JsString)

  /** The lane key; the empty key is what a legacy principal without a subject gets. */
  type OwnerKey = JsString

  /** "legacy" */
  const LEGACY: JsString := [108, 101, 103, 97, 99, 121]

  function OwnerKeyFromPrincipal(owner: OwnerPrincipal): Option<OwnerKey> {
    if owner.tenantId == LEGACY then Some(owner.subjectId)
    else
      var tenant := Encode(owner.tenantId);
      var subject := Encode(owner.subjectId);
      if tenant.None? || subject.None? then None
      else Some(tenant.value + [COLON] + subject.value)
  }

  predicate SameOwnerPrincipal(left: OwnerPrincipal, right: OwnerPrincipal) {
    left.tenantId == right.tenantId && left.subjectId == right.subjectId
  }

  predicate IsLegacy(owner: OwnerPrincipal) { owner.tenantId == LEGACY }

  /** Undoes OwnerKeyFromPrincipal on the keys of non-legacy principals. */
  function PrincipalFromKey(key: OwnerKey): Option<OwnerPrincipal> {
    var i := IndexOf(key, COLON);
    if i == -1 then None
    else
      var tenant := Decode(key[..i]);
      var subject := Decode(key[i + 1..]);
      if tenant.None? || subject.None? then None
      else Some(OwnerPrincipal(tenant.value, subject.value))
  }

  lemma {:induction false} FirstColon(a: JsString, b: JsString)
    requires COLON !in a
    ensures IndexOf(a + [COLON] + b, COLON) == |a|
  {
    var s := a + [COLON] + b;
    if a != [] {
      FirstColon(a[1..], b);
      assert s[1..] == a[1..] + [COLON] + b;
    }
  }

  lemma KeyDecodes(owner: OwnerPrincipal)
    requires !IsLegacy(owner) && OwnerKeyFromPrincipal(owner).Some?
    ensures PrincipalFromKey(OwnerKeyFromPrincipal(owner).value) == Some(owner)
    ensures COLON in OwnerKeyFromPrincipal(owner).value
  {
    var a := Encode(owner.tenantId).value;
    var b := Encode(owner.subjectId).value;
    var key := a + [COLON] + b;
    FirstColon(a, b);
    assert key[..|a|] == a && key[|a| + 1..] == b;
    RoundTrip(owner.tenantId);
    RoundTrip(owner.subjectId);
  }

  predicate Spells(s: JsString, text: string) {
    |s| == |text| && forall i :: 0 <= i < |s| ==> s[i] == text[i] as int
  }

  /** The key of a principal with plain parts is those parts with a colon between them; a legacy principal's is
      its subject. */
  lemma PlainKey(owner: OwnerPrincipal)
    requires forall c :: c in owner.tenantId + owner.subjectId ==> IsPlain(c)
    ensures OwnerKeyFromPrincipal(owner)
         == Some(if Spells(owner.tenantId, "legacy") then owner.subjectId
                 else owner.tenantId + [':' as int] + owner.subjectId)
  {
    assert Spells(LEGACY, "legacy");
    assert forall c :: c in owner.tenantId ==> c in owner.tenantId + owner.subjectId;
    assert forall c :: c in owner.subjectId ==> c in owner.tenantId + owner.subjectId;
    UnchangedIffPlain(owner.tenantId);
    UnchangedIffPlain(owner.subjectId);
  }

  lemma KeyExists(owner: OwnerPrincipal)
    ensures OwnerKeyFromPrincipal(owner).Some?
       <==> IsLegacy(owner) || (WellFormed(owner.tenantId) && WellFormed(owner.subjectId))
  {
    EncodableIffWellFormed(owner.tenantId);
    EncodableIffWellFormed(owner.subjectId);
  }

  /** Exactly when two principals share a lane: they are the same owner, or one is legacy
      and its subject happens to spell the other's key. */
  lemma LanesCollideIff(p: OwnerPrincipal, q: OwnerPrincipal)
    requires OwnerKeyFromPrincipal(p).Some? && OwnerKeyFromPrincipal(q).Some?
    ensures OwnerKeyFromPrincipal(p) == OwnerKeyFromPrincipal(q)
       <==> || SameOwnerPrincipal(p, q)
            || (IsLegacy(p) && !IsLegacy(q) && Some(p.subjectId) == OwnerKeyFromPrincipal(q))
            || (IsLegacy(q) && !IsLegacy(p) && Some(q.subjectId) == OwnerKeyFromPrincipal(p))
  {
    if !IsLegacy(p) { KeyDecodes(p); }
    if !IsLegacy(q) { KeyDecodes(q); }
  }

  /** Distinct owners get distinct lanes as long as legacy subjects contain no colon. */
  lemma DistinctLanes(p: OwnerPrincipal, q: OwnerPrincipal)
    requires OwnerKeyFromPrincipal(p).Some? && OwnerKeyFromPrincipal(q).Some?
    requires IsLegacy(p) ==> COLON !in p.subjectId
    requires IsLegacy(q) ==> COLON !in q.subjectId
    requires !SameOwnerPrincipal(p, q)
    ensures OwnerKeyFromPrincipal(p) != OwnerKeyFromPrincipal(q)
  {
    LanesCollideIff(p, q);
    if !IsLegacy(p) { KeyDecodes(p); }
    if !IsLegacy(q) { KeyDecodes(q); }
  }

  /** Without that proviso they need not: legacy "a:b" shares the lane of tenant "a", subject "b". */
  lemma LegacyColonCollides()
    ensures var p := OwnerPrincipal(LEGACY, [97, COLON, 98]);
            var q := OwnerPrincipal([97], [98]);
            !SameOwnerPrincipal(p, q) && OwnerKeyFromPrincipal(p) == OwnerKeyFromPrincipal(q)
  {
    var a: JsString, b: JsString := [97], [98];
    assert a[1..] == [] && b[1..] == [] && a + [] == a && b + [] == b;
    assert Encode(a) == Prepend([a[0]], Encode(a[1..]));
    assert Encode(b) == Prepend([b[0]], Encode(b[1..]));
    assert |LEGACY| != |a|;
    var spelled: JsString := [97, COLON, 98];
    assert a + [COLON] + b == spelled;
  }

  /** A key is empty only for a legacy principal without a subject, which the gateway's
      non-empty headers rule out. */
  lemma KeyNonEmpty(owner: OwnerPrincipal)
    requires OwnerKeyFromPrincipal(owner).Some?
    ensures OwnerKeyFromPrincipal(owner).value == [] <==> IsLegacy(owner) && owner.subjectId == []
  {
  }
}

/** Signed one-click approval tokens: base64url(issue id) "." base64url(expiry)
    "." base64url(MAC). Base64url is section 5 of RFC 4648; padding is stripped
    on the way out and restored on the way in (section 3.2). The MAC is an
    uninterpreted function of the payload, and UTF-8 validity of an id is an
    uninterpreted predicate on its bytes. */
module ApprovalToken {
  import opened Text

  type Byte = x: int | 0 <= x < 256
  type Sextet = x: int | 0 <= x < 64

  predicate IsAscii(s: string) {
    forall i :: 0 <= i < |s| ==> s[i] < '\U{80}'
  }

  function SextetChar(v: Sextet): (c: char)
    ensures c != '=' && c != '.' && c < '\U{80}'
  {
    if v < 26 then 'A' + v as char
    else if v < 52 then 'a' + (v - 26) as char
    else if v < 62 then '0' + (v - 52) as char
    else if v == 62 then '-' else '_'
  }

  /** The decoder's table after '-' and '_' have been mapped to '+' and '/'. */
  function CharSextet(c: char): Option<Sextet> {
    if 'A' <= c <= 'Z' then Some((c - 'A') as int)
    else if 'a' <= c <= 'z' then Some((c - 'a') as int + 26)
    else if '0' <= c <= '9' then Some((c - '0') as int + 52)
    else if c == '-' || c == '+' then Some(62)
    else if c == '_' || c == '/' then Some(63)
    else None
  }

  lemma SextetRoundTrip(v: Sextet)
    ensures CharSextet(SextetChar(v)) == Some(v)
  {
    if 52 <= v < 62 {
      assert SextetChar(v) - '0' == (v - 52) as char;
    }
  }

  /** Four characters for three bytes. */
  function Quad(x: Byte, y: Byte, z: Byte): string {
    [SextetChar(x / 4), SextetChar(x % 4 * 16 + y / 16), SextetChar(y % 16 * 4 + z / 64), SextetChar(z % 64)]
  }

  /** The encoding without padding characters. */
  function EncodeCore(b: seq<Byte>): string {
    if |b| == 0 then ""
    else if |b| == 1 then [SextetChar(b[0] / 4), SextetChar(b[0] % 4 * 16)]
    else if |b| == 2 then
      [SextetChar(b[0] / 4), SextetChar(b[0] % 4 * 16 + b[1] / 16), SextetChar(b[1] % 16 * 4)]
    else Quad(b[0], b[1], b[2]) + EncodeCore(b[3..])
  }

  lemma {:induction false} CoreAlphabet(b: seq<Byte>)
    ensures IsAscii(EncodeCore(b)) && '=' !in EncodeCore(b) && '.' !in EncodeCore(b)
  {
    if |b| > 2 {
      CoreAlphabet(b[3..]);
    }
  }

  function Pad(n: nat): (s: string)
    ensures |s| == n
  {
    if n == 0 then "" else "=" + Pad(n - 1)
  }

  /** The standard encoding, padded to a multiple of four. */
  function EncodePadded(b: seq<Byte>): string {
    EncodeCore(b) + Pad((0 - |EncodeCore(b)|) % 4)
  }

  function StripPad(s: string): string {
    if s != "" && s[|s| - 1] == '=' then StripPad(s[..|s| - 1]) else s
  }

  function B64Url(b: seq<Byte>): string {
    StripPad(EncodePadded(b))
  }

  /** The lenient scanner behind the decoder. `quad` counts the data characters
      of the current group, `left` holds its undelivered bits, `pads` the
      padding characters just seen. Characters outside the alphabet are skipped;
      a completed pad sequence ends the input; a group cut short is an error. */
  function Scan(s: string, quad: nat, left: nat, pads: nat): Option<seq<Byte>>
    requires quad < 4
    requires left < (if quad == 1 then 64 else if quad == 2 then 16 else if quad == 3 then 4 else 1)
  {
    if s == "" then if quad == 0 then Some([]) else None
    else if s[0] == '=' then
      if quad >= 2 && quad + pads + 1 >= 4 then Some([])
      else Scan(s[1..], quad, left, if quad >= 2 then pads + 1 else pads)
    else
      match CharSextet(s[0])
      case None => Scan(s[1..], quad, left, pads)
      case Some(v) =>
        if quad == 0 then Scan(s[1..], 1, v, 0)
        else if quad == 1 then Prepend(left * 4 + v / 16, Scan(s[1..], 2, v % 16, 0))
        else if quad == 2 then Prepend(left * 16 + v / 4, Scan(s[1..], 3, v % 4, 0))
        else Prepend(left * 64 + v, Scan(s[1..], 0, 0, 0))
  }

  function Prepend(b: Byte, rest: Option<seq<Byte>>): Option<seq<Byte>> {
    match rest
    case None => None
    case Some(bytes) => Some([b] + bytes)
  }

  function B64UrlDecode(value: string): Option<seq<Byte>> {
    var padded := value + Pad((0 - |value|) % 4);
    if IsAscii(value) then Scan(padded, 0, 0, 0) else None
  }

  lemma {:induction false} StripPadOfPadded(s: string, n: nat)
    requires s == "" || s[|s| - 1] != '='
    ensures StripPad(s + Pad(n)) == s
  {
    if n == 0 {
      assert s + Pad(0) == s;
    } else {
      var t := s + Pad(n);
      PadEnds(n);
      assert t[|t| - 1] == Pad(n)[n - 1];
      assert t[..|t| - 1] == s + Pad(n - 1);
      StripPadOfPadded(s, n - 1);
    }
  }

  lemma {:induction false} PadEnds(n: nat)
    requires n > 0
    ensures Pad(n)[n - 1] == '=' && Pad(n)[..n - 1] == Pad(n - 1)
  {
    if n > 1 {
      PadEnds(n - 1);
    }
  }

  lemma StrippedIsCore(b: seq<Byte>)
    ensures B64Url(b) == EncodeCore(b)
  {
    CoreAlphabet(b);
    StripPadOfPadded(EncodeCore(b), (0 - |EncodeCore(b)|) % 4);
  }

  lemma ScanData(v: Sextet, rest: string, quad: nat, left: nat, pads: nat)
    requires quad < 4
    requires left < (if quad == 1 then 64 else if quad == 2 then 16 else if quad == 3 then 4 else 1)
    ensures Scan([SextetChar(v)] + rest, quad, left, pads)
         == if quad == 0 then Scan(rest, 1, v, 0)
            else if quad == 1 then Prepend(left * 4 + v / 16, Scan(rest, 2, v % 16, 0))
            else if quad == 2 then Prepend(left * 16 + v / 4, Scan(rest, 3, v % 4, 0))
            else Prepend(left * 64 + v, Scan(rest, 0, 0, 0))
  {
    SextetRoundTrip(v);
    assert ([SextetChar(v)] + rest)[1..] == rest;
  }

  /** What the scanner makes of the three characters that carry two bytes. */
  lemma ScanTwoBytes(x: Byte, y: Byte, rest: string)
    ensures Scan([SextetChar(x / 4)] + ([SextetChar(x % 4 * 16 + y / 16)] + rest), 0, 0, 0)
         == Prepend(x, Scan(rest, 2, y / 16, 0))
  {
    var v1 := x % 4 * 16 + y / 16;
    ScanData(x / 4, [SextetChar(v1)] + rest, 0, 0, 0);
    ScanData(v1, rest, 1, x / 4, 0);
    assert x / 4 * 4 + v1 / 16 == x && v1 % 16 == y / 16;
  }

  lemma ScanGroup(x: Byte, y: Byte, z: Byte, rest: string)
    ensures Scan(Quad(x, y, z) + rest, 0, 0, 0) == Prepend(x, Prepend(y, Prepend(z, Scan(rest, 0, 0, 0))))
  {
    var v1, v2, v3 := x % 4 * 16 + y / 16, y % 16 * 4 + z / 64, z % 64;
    var tail := [SextetChar(v2)] + ([SextetChar(v3)] + rest);
    assert Quad(x, y, z) + rest == [SextetChar(x / 4)] + ([SextetChar(v1)] + tail);
    ScanTwoBytes(x, y, tail);
    ScanData(v2, [SextetChar(v3)] + rest, 2, y / 16, 0);
    ScanData(v3, rest, 3, z / 64, 0);
    assert y / 16 * 16 + v2 / 4 == y && v2 % 4 == z / 64;
  }

  lemma ScanPads()
    ensures forall left :: 0 <= left < 16 ==> Scan("==", 2, left, 0) == Some([])
    ensures forall left :: 0 <= left < 4 ==> Scan("=", 3, left, 0) == Some([])
  {
    assert "=="[1..] == "=";
  }

  lemma ScanLastByte(x: Byte)
    ensures Scan(EncodePadded([x]), 0, 0, 0) == Some([x])
  {
    var v1 := x % 4 * 16;
    assert x / 4 * 4 + v1 / 16 == x && v1 % 16 == 0;
    assert Pad(2) == "==";
    assert EncodePadded([x]) == [SextetChar(x / 4)] + ([SextetChar(v1)] + "==");
    ScanPads();
    ScanData(x / 4, [SextetChar(v1)] + "==", 0, 0, 0);
    ScanData(v1, "==", 1, x / 4, 0);
    assert [x] == [x] + [];
  }

  lemma ScanLastTwoBytes(x: Byte, y: Byte)
    ensures Scan(EncodePadded([x, y]), 0, 0, 0) == Some([x, y])
  {
    var v2 := y % 16 * 4;
    assert y / 16 * 16 + v2 / 4 == y && v2 % 4 == 0;
    assert Pad(1) == "=";
    assert EncodePadded([x, y]) == [SextetChar(x / 4)] + ([SextetChar(x % 4 * 16 + y / 16)] + ([SextetChar(v2)] + "="));
    ScanPads();
    ScanTwoBytes(x, y, [SextetChar(v2)] + "=");
    ScanData(v2, "=", 2, y / 16, 0);
    assert [x, y] == [x] + ([y] + []);
  }

  lemma EncodeGroup(b: seq<Byte>)
    requires |b| >= 3
    ensures EncodePadded(b) == Quad(b[0], b[1], b[2]) + EncodePadded(b[3..])
  {
    assert |EncodeCore(b)| == 4 + |EncodeCore(b[3..])|;
    PadCountPeriod(|EncodeCore(b[3..])|);
  }

  lemma PadCountPeriod(n: nat)
    ensures (0 - (4 + n)) % 4 == (0 - n) % 4
  {
  }

  lemma {:induction false} ScanEncoded(b: seq<Byte>)
    ensures Scan(EncodePadded(b), 0, 0, 0) == Some(b)
  {
    if |b| == 0 {
      assert EncodePadded(b) == "";
    } else if |b| == 1 {
      ScanLastByte(b[0]);
      assert b == [b[0]];
    } else if |b| == 2 {
      ScanLastTwoBytes(b[0], b[1]);
      assert b == [b[0], b[1]];
    } else {
      EncodeGroup(b);
      ScanGroup(b[0], b[1], b[2], EncodePadded(b[3..]));
      ScanEncoded(b[3..]);
      assert b == [b[0]] + ([b[1]] + ([b[2]] + b[3..]));
    }
  }

  /** Dropping '=' and restoring it from the length alone loses nothing. */
  lemma Base64RoundTrip(b: seq<Byte>)
    ensures B64UrlDecode(B64Url(b)) == Some(b)
  {
    StrippedIsCore(b);
    CoreAlphabet(b);
    ScanEncoded(b);
  }

  lemma Base64Injective(a: seq<Byte>, b: seq<Byte>)
    requires B64Url(a) == B64Url(b)
    ensures a == b
  {
    Base64RoundTrip(a);
    Base64RoundTrip(b);
  }

  // ----- tokens -----

  predicate AsciiBytes(b: seq<Byte>) {
    forall i :: 0 <= i < |b| ==> b[i] < 128
  }

  function TextBytes(s: string): (b: seq<Byte>)
    requires IsAscii(s)
    ensures AsciiBytes(b)
  {
    seq(|s|, i requires 0 <= i < |s| => s[i] as int)
  }

  function BytesText(b: seq<Byte>): string
    requires AsciiBytes(b)
  {
    seq(|b|, i requires 0 <= i < |b| => b[i] as char)
  }

  type Mac = string -> seq<Byte>

  function Payload(id: seq<Byte>, expiry: int): string {
    B64Url(id) + "." + B64Url(ExpiryBytes(expiry))
  }

  function ExpiryBytes(expiry: int): (b: seq<Byte>)
    ensures AsciiBytes(b)
  {
    IntTextIsAscii(expiry);
    TextBytes(IntText(expiry))
  }

  lemma IntTextIsAscii(i: int)
    ensures IsAscii(IntText(i))
  {
    var digits := Numeral(if i < 0 then -i else i);
    assert forall k :: 0 <= k < |digits| ==> IsDigit(digits[k]);
  }

  function MakeToken(mac: Mac, id: seq<Byte>, expiry: int): string {
    Payload(id, expiry) + "." + B64Url(mac(Payload(id, expiry)))
  }

  datatype Verdict = Accepted(id: seq<Byte>) | Malformed | DecodeFailed | SignatureMismatch | Expired

  function DecodeExpiry(part: string): Option<int> {
    match B64UrlDecode(part)
    case None => None
    case Some(b) => if AsciiBytes(b) then ParseInt(BytesText(b)) else None
  }

  function VerifyToken(mac: Mac, utf8: seq<Byte> -> bool, now: int, token: string): Verdict {
    var parts := Split(token, '.');
    if |parts| != 3 then Malformed else VerifyParts(mac, utf8, now, parts[0], parts[1], parts[2])
  }

  function VerifyParts(mac: Mac, utf8: seq<Byte> -> bool, now: int, a: string, b: string, c: string): Verdict {
    var id, expiry, provided := B64UrlDecode(a), DecodeExpiry(b), B64UrlDecode(c);
    if id.None? || !utf8(id.value) || expiry.None? || provided.None? || !AsciiBytes(provided.value) then DecodeFailed
    else if mac(a + "." + b) != provided.value then SignatureMismatch
    else if expiry.value < now then Expired
    else Accepted(id.value)
  }

  lemma EncodedHasNoDot(b: seq<Byte>)
    ensures '.' !in B64Url(b)
  {
    StrippedIsCore(b);
    CoreAlphabet(b);
  }

  lemma SplitThree(a: string, b: string, c: string)
    requires '.' !in a && '.' !in b && '.' !in c
    ensures Split(a + "." + b + "." + c, '.') == [a, b, c]
  {
    assert a + "." + b + "." + c == a + ['.'] + (b + ['.'] + c);
    SplitJoin(a, b + ['.'] + c, '.');
    SplitJoin(b, c, '.');
    SplitNone(c, '.');
  }

  lemma JoinInjective(a: string, b: string, c: string, d: string)
    requires '.' !in a && '.' !in b && '.' !in c && '.' !in d
    requires a + "." + b == c + "." + d
    ensures a == c && b == d
  {
    SplitJoin(a, b, '.');
    SplitJoin(c, d, '.');
    SplitNone(b, '.');
    SplitNone(d, '.');
    var l, r := [a] + [b], [c] + [d];
    assert l == r && l[0] == a && l[1] == b && r[0] == c && r[1] == d;
  }

  /** A made token always has exactly its three parts. */
  lemma MadeTokenSplits(mac: Mac, id: seq<Byte>, expiry: int)
    ensures Split(MakeToken(mac, id, expiry), '.')
         == [B64Url(id), B64Url(ExpiryBytes(expiry)), B64Url(mac(Payload(id, expiry)))]
  {
    EncodedHasNoDot(id);
    EncodedHasNoDot(ExpiryBytes(expiry));
    EncodedHasNoDot(mac(Payload(id, expiry)));
    SplitThree(B64Url(id), B64Url(ExpiryBytes(expiry)), B64Url(mac(Payload(id, expiry))));
  }

  lemma ExpiryRoundTrip(expiry: int)
    ensures DecodeExpiry(B64Url(ExpiryBytes(expiry))) == Some(expiry)
  {
    IntTextIsAscii(expiry);
    Base64RoundTrip(ExpiryBytes(expiry));
    assert BytesText(ExpiryBytes(expiry)) == IntText(expiry);
    IntTextRoundTrip(expiry);
  }

  /** A made token yields its issue id up to and including its expiry second,
      and is refused as expired afterwards. */
  lemma MadeTokenVerifies(mac: Mac, utf8: seq<Byte> -> bool, id: seq<Byte>, expiry: int, now: int)
    requires utf8(id)
    requires AsciiBytes(mac(Payload(id, expiry)))
    ensures VerifyToken(mac, utf8, now, MakeToken(mac, id, expiry))
         == if now <= expiry then Accepted(id) else Expired
  {
    MadeTokenSplits(mac, id, expiry);
    Base64RoundTrip(id);
    ExpiryRoundTrip(expiry);
    Base64RoundTrip(mac(Payload(id, expiry)));
  }

  lemma PayloadInjective(id1: seq<Byte>, e1: int, id2: seq<Byte>, e2: int)
    requires Payload(id1, e1) == Payload(id2, e2)
    ensures id1 == id2 && e1 == e2
  {
    EncodedHasNoDot(id1);
    EncodedHasNoDot(id2);
    EncodedHasNoDot(ExpiryBytes(e1));
    EncodedHasNoDot(ExpiryBytes(e2));
    JoinInjective(B64Url(id1), B64Url(ExpiryBytes(e1)), B64Url(id2), B64Url(ExpiryBytes(e2)));
    Base64Injective(id1, id2);
    ExpiryRoundTrip(e1);
    ExpiryRoundTrip(e2);
  }

  lemma AcceptedHasThreeParts(mac: Mac, utf8: seq<Byte> -> bool, now: int, token: string)
    requires VerifyToken(mac, utf8, now, token).Accepted?
    ensures var parts := Split(token, '.');
            && |parts| == 3 && '.' !in parts[0] && '.' !in parts[1]
            && VerifyToken(mac, utf8, now, token) == VerifyParts(mac, utf8, now, parts[0], parts[1], parts[2])
  {
    SplitPartsHaveNoSep(token, '.');
  }

  /** A signature made for one (id, expiry) cannot be spliced onto another
      payload: whatever token carries it, only that id is ever accepted, and
      never after that expiry. */
  lemma NoSplicing(mac: Mac, utf8: seq<Byte> -> bool, now: int, token: string, id: seq<Byte>, expiry: int)
    requires CollisionFree(mac, Payload(id, expiry))
    requires VerifyToken(mac, utf8, now, token).Accepted?
    requires B64UrlDecode(Split(token, '.')[2]) == Some(mac(Payload(id, expiry)))
    ensures VerifyToken(mac, utf8, now, token) == Accepted(id) && now <= expiry
  {
    var parts := Split(token, '.');
    AcceptedHasThreeParts(mac, utf8, now, token);
    AcceptedParts(mac, utf8, now, parts[0], parts[1], parts[2]);
    SignedPartsAreThePayload(parts[0], parts[1], id, expiry);
  }

  ghost predicate CollisionFree(mac: Mac, payload: string) {
    forall p :: mac(p) == mac(payload) ==> p == payload
  }

  lemma AcceptedParts(mac: Mac, utf8: seq<Byte> -> bool, now: int, a: string, b: string, c: string)
    requires VerifyParts(mac, utf8, now, a, b, c).Accepted?
    ensures B64UrlDecode(c) == Some(mac(a + "." + b))
    ensures DecodeExpiry(b).Some? && now <= DecodeExpiry(b).value
    ensures B64UrlDecode(a) == Some(VerifyParts(mac, utf8, now, a, b, c).id)
  {
  }

  lemma SignedPartsAreThePayload(a: string, b: string, id: seq<Byte>, expiry: int)
    requires '.' !in a && '.' !in b && a + "." + b == Payload(id, expiry)
    ensures B64UrlDecode(a) == Some(id) && DecodeExpiry(b) == Some(expiry)
  {
    EncodedHasNoDot(id);
    EncodedHasNoDot(ExpiryBytes(expiry));
    JoinInjective(a, b, B64Url(id), B64Url(ExpiryBytes(expiry)));
    Base64RoundTrip(id);
    ExpiryRoundTrip(expiry);
  }

  lemma {:induction false} SplitPartsHaveNoSep(s: string, sep: char)
    ensures forall i :: 0 <= i < |Split(s, sep)| ==> sep !in Split(s, sep)[i]
  {
    if s != "" {
      SplitPartsHaveNoSep(s[1..], sep);
    }
  }
}

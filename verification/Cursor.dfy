/** The signed page cursor: base64url without padding, a dot, and a signature in the same alphabet. */
module Cursor {
  import opened Options

  type byte = x: int | 0 <= x < 256
  type sextet = x: int | 0 <= x < 64

  // ---- base64url (sections 4 and 5 of RFC 4648)

  function Letter(v: sextet): char {
    if v < 26 then ('A' as int + v) as char
    else if v < 52 then ('a' as int + v - 26) as char
    else if v < 62 then ('0' as int + v - 52) as char
    else if v == 62 then '-' else '_'
  }

  /** The decoder also knows the letters of the standard alphabet. */
  function ValueOf(c: char): Option<sextet> {
    if 'A' <= c <= 'Z' then Some(c as int - 'A' as int)
    else if 'a' <= c <= 'z' then Some(c as int - 'a' as int + 26)
    else if '0' <= c <= '9' then Some(c as int - '0' as int + 52)
    else if c == '-' || c == '+' then Some(62)
    else if c == '_' || c == '/' then Some(63)
    else None
  }

  function B64Encode(b: seq<byte>): string {
    if |b| == 0 then ""
    else if |b| == 1 then [Letter(b[0] / 4), Letter(b[0] % 4 * 16), '=', '=']
    else if |b| == 2 then [Letter(b[0] / 4), Letter(b[0] % 4 * 16 + b[1] / 16), Letter(b[1] % 16 * 4), '=']
    else
      [Letter(b[0] / 4), Letter(b[0] % 4 * 16 + b[1] / 16), Letter(b[1] % 16 * 4 + b[2] / 64), Letter(b[2] % 64)]
      + B64Encode(b[3..])
  }

  /** The lenient decoder, letter by letter: at is the place in the group of four, left the bits not yet used;
      letters of neither alphabet are skipped, and input after the padding is not looked at. */
  function Scan(s: string, at: nat, left: nat, pads: nat): Option<seq<byte>>
    requires at < 4 && left < 64 && (at == 2 ==> left < 16) && (at == 3 ==> left < 4)
    decreases |s|
  {
    if s == "" then if at == 0 then Some([]) else None
    else if s[0] == '=' then
      if at >= 2 && at + pads + 1 >= 4 then Some([])
      else Scan(s[1..], at, left, if at >= 2 then pads + 1 else pads)
    else match ValueOf(s[0])
      case None => Scan(s[1..], at, left, pads)
      case Some(v) =>
        if at == 0 then Scan(s[1..], 1, v, 0)
        else if at == 1 then Emit(left * 4 + v / 16, Scan(s[1..], 2, v % 16, 0))
        else if at == 2 then Emit(left * 16 + v / 4, Scan(s[1..], 3, v % 4, 0))
        else Emit(left * 64 + v, Scan(s[1..], 0, 0, 0))
  }

  function Emit(b: byte, rest: Option<seq<byte>>): Option<seq<byte>> {
    match rest
    case None => None
    case Some(bs) => Some([b] + bs)
  }

  predicate Ascii(s: string) {
    forall i :: 0 <= i < |s| ==> s[i] < '\U{0080}'
  }

  function B64Decode(s: string): Option<seq<byte>> {
    if Ascii(s) then Scan(s, 0, 0, 0) else None
  }

  lemma LetterValue(v: sextet)
    ensures ValueOf(Letter(v)) == Some(v) && Letter(v) != '=' && Letter(v) != '.' && Letter(v) < '\U{0080}'
  {
  }

  predicate Reads(c: char, v: sextet) {
    ValueOf(c) == Some(v) && c != '='
  }

  /** One letter. */
  lemma ScanLetter(c: char, v: sextet, rest: string, at: nat, left: nat)
    requires at < 4 && left < 64 && (at == 2 ==> left < 16) && (at == 3 ==> left < 4) && Reads(c, v)
    ensures Scan([c] + rest, at, left, 0) ==
            if at == 0 then Scan(rest, 1, v, 0)
            else if at == 1 then Emit(left * 4 + v / 16, Scan(rest, 2, v % 16, 0))
            else if at == 2 then Emit(left * 16 + v / 4, Scan(rest, 3, v % 4, 0))
            else Emit(left * 64 + v, Scan(rest, 0, 0, 0))
  {
    assert ([c] + rest)[1..] == rest;
  }

  lemma ScanFirstTwo(c0: char, c1: char, v0: sextet, v1: sextet, rest: string)
    requires Reads(c0, v0) && Reads(c1, v1)
    ensures Scan([c0, c1] + rest, 0, 0, 0) == Emit(v0 * 4 + v1 / 16, Scan(rest, 2, v1 % 16, 0))
  {
    ScanLetter(c0, v0, [c1] + rest, 0, 0);
    ScanLetter(c1, v1, rest, 1, v0);
    assert [c0, c1] + rest == [c0] + ([c1] + rest);
  }

  lemma ScanLastTwo(c2: char, c3: char, v2: sextet, v3: sextet, rest: string, left: nat)
    requires Reads(c2, v2) && Reads(c3, v3) && left < 16
    ensures Scan([c2, c3] + rest, 2, left, 0) == Emit(left * 16 + v2 / 4, Emit(v2 % 4 * 64 + v3, Scan(rest, 0, 0, 0)))
  {
    ScanLetter(c2, v2, [c3] + rest, 2, left);
    ScanLetter(c3, v3, rest, 3, v2 % 4);
    assert [c2, c3] + rest == [c2] + ([c3] + rest);
  }

  lemma ScanPads(left: nat)
    ensures left < 16 ==> Scan(['=', '='], 2, left, 0) == Some([])
    ensures left < 4 ==> Scan(['='], 3, left, 0) == Some([])
  {
    assert ['=', '='][1..] == ['='];
  }

  lemma {:induction false} ScanDecodes(b: seq<byte>)
    ensures Scan(B64Encode(b), 0, 0, 0) == Some(b)
  {
    forall v: sextet ensures Reads(Letter(v), v) {
      LetterValue(v);
    }
    var s := B64Encode(b);
    if |b| == 1 {
      ScanOneByte(b[0], s);
      assert b == [b[0]];
    } else if |b| == 2 {
      ScanTwoBytes(b[0], b[1], s);
      assert b == [b[0], b[1]];
    } else if |b| >= 3 {
      ScanThreeBytes(b[0], b[1], b[2], s[..4], B64Encode(b[3..]));
      assert s == s[..4] + B64Encode(b[3..]);
      ScanDecodes(b[3..]);
      assert b == [b[0]] + ([b[1]] + ([b[2]] + b[3..]));
    }
  }

  lemma ScanOneByte(x: byte, s: string)
    requires |s| == 4 && Reads(s[0], x / 4) && Reads(s[1], x % 4 * 16) && s[2..] == ['=', '=']
    ensures Scan(s, 0, 0, 0) == Some([x])
  {
    assert s == [s[0], s[1]] + ['=', '='];
    ScanFirstTwo(s[0], s[1], x / 4, x % 4 * 16, ['=', '=']);
    ScanPads(0);
    assert [x] + [] == [x];
  }

  lemma ScanTwoBytes(x: byte, y: byte, s: string)
    requires |s| == 4 && Reads(s[0], x / 4) && Reads(s[1], x % 4 * 16 + y / 16) && Reads(s[2], y % 16 * 4) && s[3] == '='
    ensures Scan(s, 0, 0, 0) == Some([x, y])
  {
    assert s == [s[0], s[1]] + ([s[2]] + ['=']);
    ScanFirstTwo(s[0], s[1], x / 4, x % 4 * 16 + y / 16, [s[2]] + ['=']);
    ScanLetter(s[2], y % 16 * 4, ['='], 2, y / 16);
    ScanPads(0);
    assert [x] + ([y] + []) == [x, y];
  }

  lemma ScanThreeBytes(x: byte, y: byte, z: byte, s: string, rest: string)
    requires |s| == 4 && Reads(s[0], x / 4) && Reads(s[1], x % 4 * 16 + y / 16)
    requires Reads(s[2], y % 16 * 4 + z / 64) && Reads(s[3], z % 64)
    ensures Scan(s + rest, 0, 0, 0) == Emit(x, Emit(y, Emit(z, Scan(rest, 0, 0, 0))))
  {
    assert s + rest == [s[0], s[1]] + ([s[2], s[3]] + rest);
    ScanFirstTwo(s[0], s[1], x / 4, x % 4 * 16 + y / 16, [s[2], s[3]] + rest);
    ScanLastTwo(s[2], s[3], y % 16 * 4 + z / 64, z % 64, rest, y / 16);
  }

  /** The first test vectors of section 10 of RFC 4648, for each length of the last group. */
  lemma Vectors()
    ensures B64Encode([]) == "" && B64Encode([102]) == "Zg=="
    ensures B64Encode([102, 111]) == "Zm8=" && B64Encode([102, 111, 111]) == "Zm9v"
  {
    var foo: seq<byte> := [102, 111, 111];
    assert foo[3..] == [];
  }

  /** The two letters of the URL-safe alphabet, which the decoder also takes in their standard form. */
  lemma UrlSafeLetters()
    ensures Letter(62) == '-' && Letter(63) == '_' && B64Encode([251, 255, 191]) == "-_-_"
    ensures ValueOf('+') == Some(62) && ValueOf('/') == Some(63)
  {
    var bytes: seq<byte> := [251, 255, 191];
    assert bytes[3..] == [];
  }

  // ---- stripping and restoring the padding

  function RStrip(s: string): string {
    if s != "" && s[|s| - 1] == '=' then RStrip(s[..|s| - 1]) else s
  }

  function Repeat(c: char, n: nat): string {
    seq(n, i => c)
  }

  function Restore(s: string): string {
    s + Repeat('=', (4 - |s| % 4) % 4)
  }

  predicate Clean(s: string) {
    forall c :: c in s ==> c != '=' && c != '.' && c < '\U{0080}'
  }

  /** The letters without the padding. */
  function Letters(b: seq<byte>): string {
    if |b| == 0 then ""
    else if |b| == 1 then [Letter(b[0] / 4), Letter(b[0] % 4 * 16)]
    else if |b| == 2 then [Letter(b[0] / 4), Letter(b[0] % 4 * 16 + b[1] / 16), Letter(b[1] % 16 * 4)]
    else
      [Letter(b[0] / 4), Letter(b[0] % 4 * 16 + b[1] / 16), Letter(b[1] % 16 * 4 + b[2] / 64), Letter(b[2] % 64)]
      + Letters(b[3..])
  }

  lemma {:induction false} LettersClean(b: seq<byte>)
    ensures Clean(Letters(b))
  {
    forall v: sextet ensures Letter(v) != '=' && Letter(v) != '.' && Letter(v) < '\U{0080}' {
      LetterValue(v);
    }
    if |b| >= 3 {
      LettersClean(b[3..]);
    }
  }

  function Pads(b: seq<byte>): (r: nat)
    ensures r < 3
  {
    if |b| == 0 then 0 else if |b| == 1 then 2 else if |b| == 2 then 1 else Pads(b[3..])
  }

  lemma {:induction false} EncodedLetters(b: seq<byte>)
    ensures B64Encode(b) == Letters(b) + Repeat('=', Pads(b))
  {
    if |b| >= 3 {
      EncodedLetters(b[3..]);
    }
  }

  lemma {:induction false} WholeGroups(b: seq<byte>)
    ensures (|Letters(b)| + Pads(b)) % 4 == 0
  {
    if |b| >= 3 {
      WholeGroups(b[3..]);
      OneMoreGroup(|Letters(b[3..])| + Pads(b[3..]));
    }
  }

  lemma OneMoreGroup(n: nat)
    ensures (4 + n) % 4 == n % 4
  {
  }

  lemma {:induction false} RStripAll(s: string, n: nat)
    requires s == "" || s[|s| - 1] != '='
    ensures RStrip(s + Repeat('=', n)) == s
  {
    var t := s + Repeat('=', n);
    if n > 0 {
      assert t[..|t| - 1] == s + Repeat('=', n - 1);
      RStripAll(s, n - 1);
    } else {
      assert t == s;
    }
  }

  function Unpadded(b: seq<byte>): string {
    RStrip(B64Encode(b))
  }

  lemma UnpaddedIsLetters(b: seq<byte>)
    ensures Unpadded(b) == Letters(b) && Clean(Unpadded(b))
  {
    EncodedLetters(b);
    LettersClean(b);
    var s := Letters(b);
    assert s != "" ==> s[|s| - 1] in s;
    RStripAll(s, Pads(b));
  }

  lemma RestoreUnpadded(b: seq<byte>)
    ensures Restore(Unpadded(b)) == B64Encode(b)
  {
    UnpaddedIsLetters(b);
    EncodedLetters(b);
    WholeGroups(b);
    RestoredPads(|Letters(b)|, Pads(b));
  }

  /** For every length, what is stripped is what is restored, and no dot or pad is left. */
  lemma PaddingLossless(b: seq<byte>)
    ensures Restore(Unpadded(b)) == B64Encode(b)
    ensures B64Decode(Restore(Unpadded(b))) == Some(b)
    ensures Clean(Unpadded(b)) && Ascii(Unpadded(b))
  {
    RestoreUnpadded(b);
    UnpaddedIsLetters(b);
    EncodedAscii(b);
    ScanDecodes(b);
    CleanIsAscii(Unpadded(b));
  }

  lemma CleanIsAscii(s: string)
    requires Clean(s)
    ensures Ascii(s)
  {
    forall i | 0 <= i < |s| ensures s[i] < '\U{0080}' {
      assert s[i] in s;
    }
  }

  lemma RestoredPads(n: nat, pads: nat)
    requires pads < 4 && (n + pads) % 4 == 0
    ensures (4 - n % 4) % 4 == pads
  {
  }

  lemma EncodedAscii(b: seq<byte>)
    ensures Ascii(B64Encode(b))
  {
    EncodedLetters(b);
    LettersClean(b);
    CleanIsAscii(Letters(b));
  }

  /** So two byte strings with the same unpadded form are the same. */
  lemma UnpaddedInjective(a: seq<byte>, b: seq<byte>)
    requires Unpadded(a) == Unpadded(b)
    ensures a == b
  {
    PaddingLossless(a);
    PaddingLossless(b);
  }

  // ---- the token

  function Split(s: string): (parts: seq<string>)
    ensures |parts| >= 1
  {
    if s == "" then [""]
    else if s[0] == '.' then [""] + Split(s[1..])
    else
      var rest := Split(s[1..]);
      [[s[0]] + rest[0]] + rest[1..]
  }

  lemma {:induction false} SplitOne(s: string)
    requires '.' !in s
    ensures Split(s) == [s]
  {
    if s != "" {
      SplitOne(s[1..]);
      assert s == [s[0]] + s[1..];
    }
  }

  lemma {:induction false} SplitTwo(a: string, b: string)
    requires '.' !in a && '.' !in b
    ensures Split(a + "." + b) == [a, b]
  {
    var s := a + "." + b;
    if a == "" {
      assert s[1..] == b;
      SplitOne(b);
    } else {
      assert s[1..] == a[1..] + "." + b;
      SplitTwo(a[1..], b);
      assert a == [a[0]] + a[1..];
    }
  }

  /** The signed content; ttl is written and never read back. */
  datatype Payload = Payload(t: Option<int>, ttl: int, created: string, id: string)

  /** What the token relies on: the keyed hash, the JSON form and the ISO form of a time. */
  datatype Forms = Forms(
    hmac: seq<byte> -> seq<byte>,
    dumps: Payload -> seq<byte>,
    loads: seq<byte> -> Option<Payload>,
    isoFormat: int -> string,
    fromIso: string -> Option<int>)

  ghost predicate Faithful(f: Forms) {
    && (forall p :: f.loads(f.dumps(p)) == Some(p))
    && (forall d :: f.fromIso(f.isoFormat(d)) == Some(d))
  }

  /** Crashed is an error the decoder does not catch. */
  datatype Decoded = Ok(created: int, id: string) | InvalidFormat | SignatureMismatch | Expired | Crashed

  function Sign(f: Forms, payload: seq<byte>): string {
    Unpadded(f.hmac(payload))
  }

  function Token(f: Forms, raw: seq<byte>): string {
    Unpadded(raw) + "." + Sign(f, raw)
  }

  function EncodeCursor(f: Forms, created: int, id: string, ttl: int, now: int): string {
    Token(f, f.dumps(Payload(Some(now), ttl, f.isoFormat(created), id)))
  }

  function DecodeCursor(f: Forms, token: string, maxAge: Option<int>, now: int): Decoded {
    var parts := Split(token);
    if |parts| != 2 then InvalidFormat
    else match B64Decode(Restore(parts[0]))
      case None => Crashed
      case Some(raw) =>
        if !Ascii(parts[1]) then Crashed
        else if Sign(f, raw) != parts[1] then SignatureMismatch
        else match f.loads(raw)
          case None => Crashed
          case Some(p) =>
            if maxAge.Some? && now - (if p.t.Some? then p.t.value else 0) > maxAge.value then Expired
            else match f.fromIso(p.created)
              case None => Crashed
              case Some(created) => Ok(created, p.id)
  }

  lemma {:induction false} SplitCounts(s: string)
    ensures |Split(s)| == 1 + multiset(s)['.']
  {
    if s != "" {
      SplitCounts(s[1..]);
      assert s == [s[0]] + s[1..];
    }
  }

  /** A token is refused for its form exactly if it has not one dot. */
  lemma FormExactly(f: Forms, token: string, maxAge: Option<int>, now: int)
    ensures DecodeCursor(f, token, maxAge, now) == InvalidFormat <==> multiset(token)['.'] != 1
  {
    SplitCounts(token);
  }

  /** A token splits into its two parts, and they carry the content and its signature unchanged. */
  lemma TokenParts(f: Forms, raw: seq<byte>, signed: seq<byte>)
    ensures Split(Unpadded(raw) + "." + Sign(f, signed)) == [Unpadded(raw), Sign(f, signed)]
    ensures B64Decode(Restore(Unpadded(raw))) == Some(raw) && Ascii(Sign(f, signed))
  {
    PaddingLossless(raw);
    PaddingLossless(f.hmac(signed));
    SplitTwo(Unpadded(raw), Sign(f, signed));
  }

  /** Decoding gives back the same pair exactly while the cursor is not older than max_age. */
  lemma RoundTrip(f: Forms, created: int, id: string, ttl: int, made: int, maxAge: Option<int>, now: int)
    requires Faithful(f)
    ensures DecodeCursor(f, EncodeCursor(f, created, id, ttl, made), maxAge, now) ==
            if maxAge.None? || now - made <= maxAge.value then Ok(created, id) else Expired
  {
    var raw := f.dumps(Payload(Some(made), ttl, f.isoFormat(created), id));
    TokenParts(f, raw, raw);
  }

  /** Content under another content's signature is refused exactly when the keyed hash tells them apart. */
  lemma Tampered(f: Forms, raw: seq<byte>, signed: seq<byte>, maxAge: Option<int>, now: int)
    ensures DecodeCursor(f, Unpadded(raw) + "." + Sign(f, signed), maxAge, now) == SignatureMismatch
            <==> f.hmac(raw) != f.hmac(signed)
  {
    TokenParts(f, raw, signed);
    if Sign(f, raw) == Sign(f, signed) {
      UnpaddedInjective(f.hmac(raw), f.hmac(signed));
    }
  }

  /** Whatever token is accepted carries, under its own signature, the content that is returned. */
  lemma AcceptedIsSigned(f: Forms, token: string, maxAge: Option<int>, now: int)
    requires DecodeCursor(f, token, maxAge, now).Ok?
    ensures exists raw :: && B64Decode(Restore(Split(token)[0])) == Some(raw)
                          && Split(token)[1..] == [Sign(f, raw)] && f.loads(raw).Some?
                          && Some(DecodeCursor(f, token, maxAge, now).created) == f.fromIso(f.loads(raw).value.created)
                          && DecodeCursor(f, token, maxAge, now).id == f.loads(raw).value.id
  {
    var raw := B64Decode(Restore(Split(token)[0])).value;
    assert Split(token)[1..] == [Sign(f, raw)];
  }

  /** An accepted token whose signature was issued for some content returns that content, unless the keyed hash collides
      with it: the rest of the token cannot be anything else. */
  lemma AcceptedWasIssued(f: Forms, token: string, maxAge: Option<int>, now: int, issued: Payload)
    requires Faithful(f) && DecodeCursor(f, token, maxAge, now).Ok?
    requires |Split(token)| == 2 && Split(token)[1] == Sign(f, f.dumps(issued))
    requires forall raw :: f.hmac(raw) == f.hmac(f.dumps(issued)) ==> raw == f.dumps(issued)
    ensures B64Decode(Restore(Split(token)[0])) == Some(f.dumps(issued))
    ensures f.fromIso(issued.created) == Some(DecodeCursor(f, token, maxAge, now).created)
    ensures DecodeCursor(f, token, maxAge, now).id == issued.id
    ensures maxAge.Some? ==> now - maxAge.value <= match issued.t { case Some(t) => t case None => 0 }
  {
    AcceptedIsSigned(f, token, maxAge, now);
    var raw :| B64Decode(Restore(Split(token)[0])) == Some(raw) && Split(token)[1..] == [Sign(f, raw)];
    UnpaddedInjective(f.hmac(raw), f.hmac(f.dumps(issued)));
  }
}

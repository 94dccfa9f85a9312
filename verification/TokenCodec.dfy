/** Signed tokens: unpadded base64url (section 5 of RFC 4648, padding as in section 3.2) of a JSON payload, a dot, and the
    signature of the encoded payload. */
module TokenCodec {
  import opened Ledgers

  type Byte = x: nat | x < 256
  type Sextet = x: nat | x < 64

  // ----- urlsafe_b64encode and rstrip

  function Letter(x: Sextet): (c: char)
    ensures SextetOf(c) == Some(x) && c != '=' && c != '.' && c as int < 128
  {
    if x < 26 then 'A' + x as char
    else if x < 52 then 'a' + (x - 26) as char
    else if x < 62 then '0' + (x - 52) as char
    else if x == 62 then '-' else '_'
  }

  /** The decoder takes the letters of either alphabet. */
  function SextetOf(c: char): Option<Sextet> {
    if 'A' <= c <= 'Z' then Some(c as int - 'A' as int)
    else if 'a' <= c <= 'z' then Some(c as int - 'a' as int + 26)
    else if '0' <= c <= '9' then Some(c as int - '0' as int + 52)
    else if c == '-' || c == '+' then Some(62)
    else if c == '_' || c == '/' then Some(63)
    else None
  }

  function One(a: Byte): string {
    [Letter(a / 4), Letter(a % 4 * 16)]
  }

  function Two(a: Byte, b: Byte): string {
    [Letter(a / 4), Letter(a % 4 * 16 + b / 16), Letter(b % 16 * 4)]
  }

  function Three(a: Byte, b: Byte, c: Byte): string {
    [Letter(a / 4), Letter(a % 4 * 16 + b / 16), Letter(b % 16 * 4 + c / 64), Letter(c % 64)]
  }

  /** Three bytes make four letters; one or two left over make two or three, filled up with pads. */
  function Padded(b: seq<Byte>): string {
    if b == [] then ""
    else if |b| == 1 then One(b[0]) + "=="
    else if |b| == 2 then Two(b[0], b[1]) + "="
    else Three(b[0], b[1], b[2]) + Padded(b[3..])
  }

  function StripPads(s: string): string {
    if |s| > 0 && s[|s| - 1] == '=' then StripPads(s[..|s| - 1]) else s
  }

  function Encode(b: seq<Byte>): string {
    StripPads(Padded(b))
  }

  // ----- restoring the pads and urlsafe_b64decode

  function Pads(n: nat): string {
    seq(n, _ => '=')
  }

  /** The decoder's state: letters seen of the current four, bits carried over, pads in a row, bytes so far, and whether a
      pad sequence has ended the input. */
  datatype Scanner = Scanner(quad: nat, left: nat, pads: nat, out: seq<Byte>, ended: bool)

  ghost predicate Sound(sc: Scanner) {
    sc.quad < 4 && sc.left < 64 && (sc.quad == 2 ==> sc.left < 16) && (sc.quad == 3 ==> sc.left < 4)
  }

  function Feed(sc: Scanner, c: char): (r: Scanner)
    requires Sound(sc)
    ensures Sound(r)
  {
    if sc.ended then sc
    else if c == '=' then
      if sc.quad < 2 then sc
      else if sc.quad + sc.pads + 1 >= 4 then sc.(ended := true) else sc.(pads := sc.pads + 1)
    else match SextetOf(c)
      case None => sc
      case Some(x) =>
        if sc.quad == 0 then sc.(quad := 1, left := x, pads := 0)
        else if sc.quad == 1 then sc.(quad := 2, left := x % 16, pads := 0, out := sc.out + [sc.left * 4 + x / 16])
        else if sc.quad == 2 then sc.(quad := 3, left := x % 4, pads := 0, out := sc.out + [sc.left * 16 + x / 4])
        else sc.(quad := 0, left := 0, pads := 0, out := sc.out + [sc.left * 64 + x])
  }

  function FeedAll(sc: Scanner, s: string): (r: Scanner)
    requires Sound(sc)
    ensures Sound(r)
    decreases |s|
  {
    if s == "" then sc else FeedAll(Feed(sc, s[0]), s[1..])
  }

  const Empty: Scanner := Scanner(0, 0, 0, [], false)

  function Decode(s: string): Option<seq<Byte>> {
    var padding := (-|s|) % 4;
    var end := FeedAll(Empty, s + Pads(padding));
    if end.ended || end.quad == 0 then Some(end.out) else None
  }

  // ----- round trip

  ghost predicate AllLetters(s: string) {
    forall k | 0 <= k < |s| :: SextetOf(s[k]).Some?
  }

  lemma {:induction false} FeedAppend(sc: Scanner, s: string, t: string)
    requires Sound(sc)
    ensures FeedAll(sc, s + t) == FeedAll(FeedAll(sc, s), t)
    decreases |s|
  {
    if s == "" {
      assert s + t == t;
    } else {
      assert (s + t)[0] == s[0] && (s + t)[1..] == s[1..] + t;
      FeedAppend(Feed(sc, s[0]), s[1..], t);
    }
  }

  ghost predicate Letters(s: string) {
    AllLetters(s) && (forall k | 0 <= k < |s| :: s[k] != '=' && s[k] != '.' && s[k] as int < 128)
  }

  /** The letters of the encoding, without pads. */
  ghost function Body(b: seq<Byte>): (s: string)
    ensures Letters(s) && |s| == (4 * |b| + 2) / 3
  {
    if b == [] then ""
    else if |b| == 1 then One(b[0])
    else if |b| == 2 then Two(b[0], b[1])
    else Three(b[0], b[1], b[2]) + Body(b[3..])
  }

  ghost predicate Fills(padded: string, body: string) {
    padded == body + Pads((-|body|) % 4)
  }

  lemma {:induction false} PaddedShape(b: seq<Byte>)
    ensures Fills(Padded(b), Body(b))
  {
    if |b| == 1 {
      assert Pads(2) == "==" && |One(b[0])| == 2;
    } else if |b| == 2 {
      assert Pads(1) == "=" && |Two(b[0], b[1])| == 3;
    } else if |b| >= 3 {
      PaddedShape(b[3..]);
      FillsMore(Three(b[0], b[1], b[2]), Padded(b[3..]), Body(b[3..]));
    }
  }

  lemma FillsMore(head: string, padded: string, body: string)
    requires |head| == 4 && Fills(padded, body)
    ensures Fills(head + padded, head + body)
  {
    assert (-|head + body|) % 4 == (-|body|) % 4;
  }

  lemma {:induction false} StripAll(s: string, n: nat)
    requires |s| > 0 ==> s[|s| - 1] != '='
    ensures StripPads(s + Pads(n)) == s
  {
    if n == 0 {
      assert s + Pads(0) == s;
    } else {
      assert (s + Pads(n))[..|s| + n - 1] == s + Pads(n - 1);
      StripAll(s, n - 1);
    }
  }

  /** The encoding is the letters alone, so the decoder's pads are the ones that were stripped. */
  lemma EncodeShape(b: seq<Byte>)
    ensures Letters(Encode(b)) && |Encode(b)| == (4 * |b| + 2) / 3
    ensures Fills(Padded(b), Encode(b))
  {
    PaddedShape(b);
    LettersStay(Body(b), Padded(b));
  }

  lemma LettersStay(body: string, padded: string)
    requires Letters(body) && Fills(padded, body)
    ensures StripPads(padded) == body
  {
    StripAll(body, (-|body|) % 4);
  }

  lemma FeedCons(sc: Scanner, c: char, s: string)
    requires Sound(sc)
    ensures FeedAll(sc, [c] + s) == FeedAll(Feed(sc, c), s)
  {
    assert ([c] + s)[1..] == s;
  }

  lemma FeedFour(sc: Scanner, x: char, y: char, z: char, u: char, rest: string)
    requires Sound(sc)
    ensures FeedAll(sc, [x, y, z, u] + rest) == FeedAll(Feed(Feed(Feed(Feed(sc, x), y), z), u), rest)
  {
    var s1 := [u] + rest;
    var s2 := [z] + s1;
    var s3 := [y] + s2;
    assert [x, y, z, u] + rest == [x] + s3;
    FeedCons(sc, x, s3);
    FeedCons(Feed(sc, x), y, s2);
    FeedCons(Feed(Feed(sc, x), y), z, s1);
    FeedCons(Feed(Feed(Feed(sc, x), y), z), u, rest);
  }

  lemma FeedOne(out: seq<Byte>, b0: Byte)
    ensures var s := Feed(Feed(Empty.(out := out), Letter(b0 / 4)), Letter(b0 % 4 * 16)); s.quad == 2 && s.pads == 0 && !s.ended && s.out == out + [b0]
  {
  }

  lemma FeedTwo(out: seq<Byte>, b0: Byte, b1: Byte)
    ensures var s := Feed(Feed(Empty.(out := out), Letter(b0 / 4)), Letter(b0 % 4 * 16 + b1 / 16));
            s == Scanner(2, b1 / 16, 0, out + [b0], false)
    ensures var s := Feed(Scanner(2, b1 / 16, 0, out + [b0], false), Letter(b1 % 16 * 4));
            s.quad == 3 && s.pads == 0 && !s.ended && s.out == out + [b0] + [b1]
  {
  }

  lemma FeedThree(out: seq<Byte>, b0: Byte, b1: Byte, b2: Byte)
    ensures Feed(Scanner(2, b1 / 16, 0, out + [b0], false), Letter(b1 % 16 * 4 + b2 / 64)) == Scanner(3, b2 / 64, 0, out + [b0] + [b1], false)
    ensures Feed(Scanner(3, b2 / 64, 0, out + [b0] + [b1], false), Letter(b2 % 64)) == Empty.(out := out + [b0] + [b1] + [b2])
  {
  }

  ghost predicate Finished(sc: Scanner, out: seq<Byte>) {
    (sc.ended || sc.quad == 0) && sc.out == out
  }

  lemma ScanOne(a: Byte, out: seq<Byte>)
    ensures Finished(FeedAll(Empty.(out := out), One(a) + "=="), out + [a])
  {
    FeedOne(out, a);
    assert One(a) + "==" == [Letter(a / 4), Letter(a % 4 * 16), '=', '='] + "";
    FeedFour(Empty.(out := out), Letter(a / 4), Letter(a % 4 * 16), '=', '=', "");
  }

  lemma ScanTwo(a: Byte, b: Byte, out: seq<Byte>)
    ensures Finished(FeedAll(Empty.(out := out), Two(a, b) + "="), out + [a] + [b])
  {
    FeedTwo(out, a, b);
    assert Two(a, b) + "=" == [Letter(a / 4), Letter(a % 4 * 16 + b / 16), Letter(b % 16 * 4), '='] + "";
    FeedFour(Empty.(out := out), Letter(a / 4), Letter(a % 4 * 16 + b / 16), Letter(b % 16 * 4), '=', "");
  }

  lemma ScanThree(a: Byte, b: Byte, c: Byte, out: seq<Byte>, rest: string)
    ensures FeedAll(Empty.(out := out), Three(a, b, c) + rest) == FeedAll(Empty.(out := out + [a] + [b] + [c]), rest)
  {
    FeedTwo(out, a, b);
    FeedThree(out, a, b, c);
    FeedFour(Empty.(out := out), Letter(a / 4), Letter(a % 4 * 16 + b / 16), Letter(b % 16 * 4 + c / 64), Letter(c % 64), rest);
  }

  lemma {:induction false} ScanPadded(b: seq<Byte>, out: seq<Byte>)
    ensures Finished(FeedAll(Empty.(out := out), Padded(b)), out + b)
    decreases |b|
  {
    if |b| == 0 {
      assert out + b == out;
    } else if |b| == 1 {
      ScanOne(b[0], out);
      assert b == [b[0]];
    } else if |b| == 2 {
      ScanTwo(b[0], b[1], out);
      assert out + b == out + [b[0]] + [b[1]];
    } else {
      var done := out + [b[0]] + [b[1]] + [b[2]];
      ScanThree(b[0], b[1], b[2], out, Padded(b[3..]));
      ScanPadded(b[3..], done);
      assert out + b == done + b[3..];
    }
  }

  /** Every byte string survives encoding without pads and decoding. */
  lemma RoundTrip(b: seq<Byte>)
    ensures Decode(Encode(b)) == Some(b)
  {
    EncodeShape(b);
    ScanPadded(b, []);
    assert Empty.(out := []) == Empty && [] + b == b;
  }

  /** A string of letters decodes exactly when its length is not one more than a multiple of four. */
  lemma DecodesExactly(s: string)
    requires AllLetters(s)
    ensures Decode(s).Some? <==> |s| % 4 != 1
  {
    var padding := (-|s|) % 4;
    ScanLetters(s, Empty);
    FeedAppend(Empty, s, Pads(padding));
    var mid := FeedAll(Empty, s);
    if padding == 1 {
      assert Pads(1) == "=";
    } else if padding == 2 {
      assert Pads(2) == "==" && "=="[1..] == "=";
    } else if padding == 3 {
      assert Pads(3) == "===" && "==="[1..] == "==" && "=="[1..] == "=";
    }
  }

  lemma {:induction false} ScanLetters(s: string, sc: Scanner)
    requires AllLetters(s) && Sound(sc) && !sc.ended && sc.pads == 0
    ensures var end := FeedAll(sc, s); !end.ended && end.pads == 0 && end.quad == (sc.quad + |s|) % 4
    decreases |s|
  {
    if s != "" {
      assert s[0] != '=';
      ScanLetters(s[1..], Feed(sc, s[0]));
    }
  }

  // ----- which letters

  /** The URL-safe alphabet of table 2 of RFC 4648, in character codes: A-Z, a-z, 0-9, hyphen and underscore. */
  lemma Alphabet(x: Sextet)
    ensures x < 26 ==> Letter(x) as int == 65 + x
    ensures 26 <= x < 52 ==> Letter(x) as int == 97 + (x - 26)
    ensures 52 <= x < 62 ==> Letter(x) as int == 48 + (x - 52)
    ensures x == 62 ==> Letter(x) as int == 45
    ensures x == 63 ==> Letter(x) as int == 95
  {
  }

  function Digit64(c: char): nat {
    match SextetOf(c) case Some(x) => x case None => 0
  }

  /** The letters are the digits of the bytes in base 64, the most significant first, left-overs shifted up to fill their letters. */
  lemma LettersAreDigits(a: Byte, b: Byte, c: Byte)
    ensures var t := Three(a, b, c);
            Digit64(t[0]) * 262144 + Digit64(t[1]) * 4096 + Digit64(t[2]) * 64 + Digit64(t[3]) == a * 65536 + b * 256 + c
    ensures var t := Two(a, b); Digit64(t[0]) * 4096 + Digit64(t[1]) * 64 + Digit64(t[2]) == (a * 256 + b) * 4
    ensures var t := One(a); Digit64(t[0]) * 64 + Digit64(t[1]) == a * 16
  {
  }

  // ----- issue and validate

  /** JSON values, as far as validate looks at them. */
  datatype Json = Object(fields: map<string, Field>) | NoObject
  datatype Field = Text(text: string) | Number(value: int)

  /** Sorted compact json.dumps, json.loads (which may raise), and the HMAC under the codec's secret. */
  datatype Codec = Codec(dumps: map<string, Field> -> seq<Byte>, loads: seq<Byte> -> Option<Json>, sign: string -> string)

  datatype Verdict = Accepted(fields: map<string, Field>) | Refused(code: string)

  function Payload(claims: map<string, Field>, tokenType: string, exp: int): map<string, Field> {
    claims["typ" := Text(tokenType)]["exp" := Number(exp)]
  }

  function Issue(c: Codec, tokenType: string, ttl: int, claims: map<string, Field>, now: Time): string {
    var encoded := Encode(c.dumps(Payload(claims, tokenType, now + ttl)));
    encoded + "." + c.sign(encoded)
  }

  function FirstDot(s: string): (i: nat)
    ensures i <= |s| && (forall k | 0 <= k < i :: s[k] != '.') && (i < |s| ==> s[i] == '.')
  {
    if s == "" || s[0] == '.' then 0 else 1 + FirstDot(s[1..])
  }

  function Validate(c: Codec, token: string, tokenType: string, expiredCode: string, now: Time): Verdict {
    var dot := FirstDot(token);
    if dot == |token| then Refused("invalid_token")
    else
      var encoded, signature := token[..dot], token[dot + 1..];
      if (exists k | 0 <= k < |encoded| :: encoded[k] as int >= 128) || signature != c.sign(encoded) then Refused("invalid_token")
      else match Decode(encoded)
        case None => Refused("invalid_token")
        case Some(bytes) => Checked(c.loads(bytes), tokenType, expiredCode, now)
  }

  function Expiry(fields: map<string, Field>): int {
    if "exp" in fields && fields["exp"].Number? then fields["exp"].value else 0
  }

  function Checked(payload: Option<Json>, tokenType: string, expiredCode: string, now: Time): Verdict {
    match payload
    case Some(Object(fields)) =>
      if !("typ" in fields && fields["typ"] == Text(tokenType)) then Refused("invalid_token")
      else
        if Expiry(fields) <= now then Refused(expiredCode) else Accepted(fields)
    case _ => Refused("invalid_token")
  }

  /** An issued token gives back its claims, type and expiry to a validator of its type until it expires, the expired code
      from that second on, and nothing to a validator of another type. */
  lemma IssuedTokenValidates(c: Codec, tokenType: string, ttl: int, claims: map<string, Field>, issued: Time,
                             expected: string, expiredCode: string, now: Time)
    requires var p := Payload(claims, tokenType, issued + ttl); c.loads(c.dumps(p)) == Some(Object(p))
    ensures Validate(c, Issue(c, tokenType, ttl, claims, issued), expected, expiredCode, now) ==
              if expected != tokenType then Refused("invalid_token")
              else if now >= issued + ttl then Refused(expiredCode)
              else Accepted(Payload(claims, tokenType, issued + ttl))
  {
    var bytes := c.dumps(Payload(claims, tokenType, issued + ttl));
    EncodeShape(bytes);
    RoundTrip(bytes);
    DotSplits(Encode(bytes), c.sign(Encode(bytes)));
  }

  /** What an unexpired token of the right type gives back: every claim except "typ" and "exp", which are the type and the expiry. */
  lemma AcceptedTokenHoldsClaims(c: Codec, tokenType: string, ttl: int, claims: map<string, Field>, issued: Time, expiredCode: string, now: Time)
    requires var p := Payload(claims, tokenType, issued + ttl); c.loads(c.dumps(p)) == Some(Object(p))
    requires now < issued + ttl
    ensures var v := Validate(c, Issue(c, tokenType, ttl, claims, issued), tokenType, expiredCode, now);
            && v.Accepted? && v.fields.Keys == claims.Keys + {"typ", "exp"}
            && (forall k | k in claims && k != "typ" && k != "exp" :: v.fields[k] == claims[k])
            && v.fields["typ"] == Text(tokenType) && v.fields["exp"] == Number(issued + ttl)
  {
    IssuedTokenValidates(c, tokenType, ttl, claims, issued, tokenType, expiredCode, now);
    assert "typ" != "exp" by { assert "typ"[0] == 't' && "exp"[0] == 'e'; }
  }

  lemma DotSplits(encoded: string, signature: string)
    requires forall k | 0 <= k < |encoded| :: encoded[k] != '.'
    ensures var token := encoded + "." + signature; FirstDot(token) == |encoded| && token[..|encoded|] == encoded && token[|encoded| + 1..] == signature
  {
    var token := encoded + "." + signature;
    assert token[|encoded|] == '.';
    assert forall k | 0 <= k < |encoded| :: token[k] == encoded[k];
  }

  /** What validate demands of the part before the dot. */
  ghost predicate Acceptable(c: Codec, encoded: string, tokenType: string, now: Time, fields: map<string, Field>) {
    && (forall k | 0 <= k < |encoded| :: encoded[k] != '.' && encoded[k] as int < 128)
    && Decode(encoded).Some? && c.loads(Decode(encoded).value) == Some(Object(fields))
    && "typ" in fields && fields["typ"] == Text(tokenType)
    && Expiry(fields) > now
  }

  /** Nothing is accepted but the encoding of an unexpired object of the expected type, followed by its own signature. */
  lemma AcceptedExactly(c: Codec, token: string, tokenType: string, expiredCode: string, now: Time, fields: map<string, Field>)
    ensures Validate(c, token, tokenType, expiredCode, now) == Accepted(fields) <==>
              exists encoded :: Acceptable(c, encoded, tokenType, now, fields) && token == encoded + "." + c.sign(encoded)
  {
    var dot := FirstDot(token);
    if Validate(c, token, tokenType, expiredCode, now) == Accepted(fields) {
      assert token == token[..dot] + "." + token[dot + 1..];
      assert Acceptable(c, token[..dot], tokenType, now, fields);
    }
    if encoded :| Acceptable(c, encoded, tokenType, now, fields) && token == encoded + "." + c.sign(encoded) {
      DotSplits(encoded, c.sign(encoded));
    }
  }
}

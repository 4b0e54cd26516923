/** The session cookie: an id and a secret, joined by a colon, in unpadded URL-safe base64 (RFC 4648 section 5). */
module SplitToken {
  import opened Wrappers

  type Byte = n: int | 0 <= n < 256

  const COLON: Byte := 58

  // ---------- base64 ----------

  function Digit(n: int): char
    requires 0 <= n < 64
  {
    if n < 26 then ('A' as int + n) as char
    else if n < 52 then ('a' as int + n - 26) as char
    else if n < 62 then ('0' as int + n - 52) as char
    else if n == 62 then '-'
    else '_'
  }

  function Sextet(c: char): (n: Option<int>)
    ensures n.Some? ==> 0 <= n.value < 64
  {
    if 'A' <= c <= 'Z' then Some(c as int - 'A' as int)
    else if 'a' <= c <= 'z' then Some(c as int - 'a' as int + 26)
    else if '0' <= c <= '9' then Some(c as int - '0' as int + 52)
    else if c == '-' then Some(62)
    else if c == '_' then Some(63)
    else None
  }

  /** The digits of three bytes. */
  function Group(x: Byte, y: Byte, z: Byte): (s: string)
    ensures |s| == 4
  {
    [Digit(x / 4), Digit(x % 4 * 16 + y / 16), Digit(y % 16 * 4 + z / 64), Digit(z % 64)]
  }

  function Encode64(b: seq<Byte>): string {
    if b == [] then ""
    else if |b| == 1 then [Digit(b[0] / 4), Digit(b[0] % 4 * 16)]
    else if |b| == 2 then [Digit(b[0] / 4), Digit(b[0] % 4 * 16 + b[1] / 16), Digit(b[1] % 16 * 4)]
    else Group(b[0], b[1], b[2]) + Encode64(b[3..])
  }

  /** Line breaks are skipped wherever they stand. */
  function WithoutBreaks(s: string): string {
    if s == "" then ""
    else if s[0] == '\n' || s[0] == '\r' then WithoutBreaks(s[1..])
    else [s[0]] + WithoutBreaks(s[1..])
  }

  /** Unused low bits of the last digit are ignored; a lone last digit is an error. */
  function DecodeGroups(s: string): Option<seq<Byte>> {
    if s == "" then Some([])
    else if |s| == 1 || Sextet(s[0]) == None || Sextet(s[1]) == None then None
    else
      var x, y := Sextet(s[0]).value, Sextet(s[1]).value;
      var first: seq<Byte> := [x * 4 + y / 16];
      if |s| == 2 then Some(first)
      else if Sextet(s[2]) == None then None
      else
        var z := Sextet(s[2]).value;
        var second: seq<Byte> := [y % 16 * 16 + z / 4];
        if |s| == 3 then Some(first + second)
        else if Sextet(s[3]) == None then None
        else
          var third: seq<Byte> := [z % 4 * 64 + Sextet(s[3]).value];
          match DecodeGroups(s[4..])
          case Some(rest) => Some(first + second + third + rest)
          case None => None
  }

  function Decode64(s: string): Option<seq<Byte>> {
    DecodeGroups(WithoutBreaks(s))
  }

  lemma DigitIsSextet(n: int)
    requires 0 <= n < 64
    ensures Sextet(Digit(n)) == Some(n) && Digit(n) != '\n' && Digit(n) != '\r'
  {
  }

  /** The URL-safe alphabet: letters, small letters and figures, each kind in order, then minus and underscore. */
  lemma Alphabet(n: int)
    requires 0 <= n < 64
    ensures Digit(0) == 'A' && Digit(26) == 'a' && Digit(52) == '0' && Digit(62) == '-' && Digit(63) == '_'
    ensures n !in {25, 51, 61, 62, 63} ==> Digit(n + 1) as int == Digit(n) as int + 1
  {
  }

  /** The digits of a full group, 6 bits each, are the same number as its bytes, 8 bits each. */
  lemma GroupIsNumber(x: Byte, y: Byte, z: Byte) returns (a: int, b: int, c: int, d: int)
    ensures 0 <= a < 64 && 0 <= b < 64 && 0 <= c < 64 && 0 <= d < 64
    ensures Encode64([x, y, z]) == [Digit(a), Digit(b), Digit(c), Digit(d)]
    ensures ((a * 64 + b) * 64 + c) * 64 + d == (x * 256 + y) * 256 + z
  {
    a, b, c, d := x / 4, x % 4 * 16 + y / 16, y % 16 * 4 + z / 64, z % 64;
    assert Encode64([]) == "" && [x, y, z][3..] == [];
    assert Encode64([x, y, z]) == Group(x, y, z);
  }

  lemma {:induction false} NoBreaks(s: string)
    requires forall c :: c in s ==> c != '\n' && c != '\r'
    ensures WithoutBreaks(s) == s
  {
    if s != "" {
      assert s[0] in s && forall c :: c in s[1..] ==> c in s;
      assert s == [s[0]] + s[1..];
      NoBreaks(s[1..]);
    }
  }

  lemma {:induction false} DigitsHaveNoBreaks(b: seq<Byte>)
    ensures forall c :: c in Encode64(b) ==> c != '\n' && c != '\r'
  {
    forall n | 0 <= n < 64 ensures Digit(n) != '\n' && Digit(n) != '\r' {
      DigitIsSextet(n);
    }
    if |b| > 2 {
      DigitsHaveNoBreaks(b[3..]);
    }
  }

  /** Three bytes cut into four sextets and put together again. */
  lemma Regroup(x: Byte, y: Byte, z: Byte)
    ensures 0 <= x / 4 < 64 && 0 <= x % 4 * 16 + y / 16 < 64 && 0 <= y % 16 * 4 + z / 64 < 64 && 0 <= z % 64 < 64
    ensures x / 4 * 4 + (x % 4 * 16 + y / 16) / 16 == x
    ensures (x % 4 * 16 + y / 16) % 16 * 16 + (y % 16 * 4 + z / 64) / 4 == y
    ensures (y % 16 * 4 + z / 64) % 4 * 64 + z % 64 == z
  {
  }

  lemma LastByte(x: Byte)
    ensures DecodeGroups(Encode64([x])) == Some([x])
  {
    Regroup(x, 0, 0);
    DigitIsSextet(x / 4);
    DigitIsSextet(x % 4 * 16);
  }

  lemma LastTwoBytes(x: Byte, y: Byte)
    ensures DecodeGroups(Encode64([x, y])) == Some([x, y])
  {
    Regroup(x, y, 0);
    DigitIsSextet(x / 4);
    DigitIsSextet(x % 4 * 16 + y / 16);
    DigitIsSextet(y % 16 * 4);
    assert y % 16 * 4 + 0 / 64 == y % 16 * 4;
    assert Encode64([x, y]) == [Digit(x / 4), Digit(x % 4 * 16 + y / 16), Digit(y % 16 * 4)];
    assert [x] + [y] == [x, y];
  }

  /** A full group decodes to its three bytes, whatever follows. */
  lemma FullGroup(x: Byte, y: Byte, z: Byte, tail: string, rest: seq<Byte>)
    requires DecodeGroups(tail) == Some(rest)
    ensures DecodeGroups(Group(x, y, z) + tail) == Some([x, y, z] + rest)
  {
    var s := Group(x, y, z) + tail;
    assert s[4..] == tail;
    Regroup(x, y, z);
    DigitIsSextet(x / 4);
    DigitIsSextet(x % 4 * 16 + y / 16);
    DigitIsSextet(y % 16 * 4 + z / 64);
    DigitIsSextet(z % 64);
    assert [x] + [y] + [z] + rest == [x, y, z] + rest;
  }

  lemma {:induction false} GroupsRoundTrip(b: seq<Byte>)
    ensures DecodeGroups(Encode64(b)) == Some(b)
  {
    if |b| == 1 {
      LastByte(b[0]);
      assert b == [b[0]];
    } else if |b| == 2 {
      LastTwoBytes(b[0], b[1]);
      assert b == [b[0], b[1]];
    } else if |b| > 2 {
      GroupsRoundTrip(b[3..]);
      FullGroup(b[0], b[1], b[2], Encode64(b[3..]), b[3..]);
      assert b == [b[0], b[1], b[2]] + b[3..];
    }
  }

  lemma RoundTrip64(b: seq<Byte>)
    ensures Decode64(Encode64(b)) == Some(b)
  {
    DigitsHaveNoBreaks(b);
    NoBreaks(Encode64(b));
    GroupsRoundTrip(b);
  }

  // ---------- the token ----------

  datatype SplitToken = SplitToken(id: seq<Byte>, secret: seq<Byte>)

  function Encode(t: SplitToken): string {
    Encode64(t.id + [COLON] + t.secret)
  }

  /** strings.Split */
  function Split(s: seq<Byte>, separator: Byte): (parts: seq<seq<Byte>>)
    ensures parts != []
  {
    if s == [] then [[]]
    else
      var rest := Split(s[1..], separator);
      if s[0] == separator then [[]] + rest else [[s[0]] + rest[0]] + rest[1..]
  }

  function DecodeSplitToken(text: string): Option<SplitToken> {
    match Decode64(text)
    case None => None
    case Some(bytes) =>
      var parts := Split(bytes, COLON);
      if |parts| != 2 then None
      else if parts[0] == [] then None
      else if parts[1] == [] then None
      else Some(SplitToken(parts[0], parts[1]))
  }

  lemma {:induction false} SplitWithout(s: seq<Byte>, separator: Byte)
    requires separator !in s
    ensures Split(s, separator) == [s]
  {
    if s != [] {
      SplitWithout(s[1..], separator);
      assert [s[0]] + s[1..] == s;
    }
  }

  /** Splitting a joined pair at the first separator, when the first part has none. */
  lemma {:induction false} SplitJoined(a: seq<Byte>, b: seq<Byte>, separator: Byte)
    requires separator !in a
    ensures Split(a + [separator] + b, separator) == [a] + Split(b, separator)
  {
    var s := a + [separator] + b;
    if a == [] {
      assert s[1..] == b;
    } else {
      assert s[1..] == a[1..] + [separator] + b;
      SplitJoined(a[1..], b, separator);
      assert [a[0]] + a[1..] == a;
      assert ([a[1..]] + Split(b, separator))[1..] == Split(b, separator);
    }
  }

  lemma {:induction false} SplitParts(s: seq<Byte>, separator: Byte)
    ensures |Split(s, separator)| == 1 + multiset(s)[separator]
  {
    if s != [] {
      SplitParts(s[1..], separator);
      assert s == [s[0]] + s[1..];
    }
  }

  /** A text decodes to a token exactly when it is base64 of the token's parts, both fit for that, around a colon. */
  lemma DecodesExactly(text: string, t: SplitToken)
    ensures DecodeSplitToken(text) == Some(t) <==>
            && Decode64(text) == Some(t.id + [58] + t.secret)
            && t.id != [] && t.secret != [] && 58 !in t.id && 58 !in t.secret
  {
    if Decode64(text).Some? {
      var bytes := Decode64(text).value;
      JoinOfTwo(bytes);
      if bytes == t.id + [COLON] + t.secret && COLON !in t.id && COLON !in t.secret {
        SplitJoined(t.id, t.secret, COLON);
        SplitWithout(t.secret, COLON);
      }
    }
  }

  lemma {:induction false} NoPartHasSeparator(s: seq<Byte>, separator: Byte)
    ensures forall p :: p in Split(s, separator) ==> separator !in p
  {
    if s != [] {
      NoPartHasSeparator(s[1..], separator);
    }
  }

  lemma {:induction false} OnePart(s: seq<Byte>, separator: Byte)
    requires |Split(s, separator)| == 1
    ensures Split(s, separator) == [s]
  {
    if s != [] {
      OnePart(s[1..], separator);
      assert [s[0]] + s[1..] == s;
    }
  }

  /** Two parts and the separator between them are the whole. */
  lemma {:induction false} TwoParts(s: seq<Byte>, separator: Byte)
    requires |Split(s, separator)| == 2
    ensures s == Split(s, separator)[0] + [separator] + Split(s, separator)[1]
  {
    if s[0] == separator {
      OnePart(s[1..], separator);
      assert s == [] + [s[0]] + s[1..];
    } else {
      TwoParts(s[1..], separator);
      assert s == [s[0]] + s[1..];
    }
  }

  lemma JoinOfTwo(bytes: seq<Byte>)
    ensures |Split(bytes, COLON)| == 2 ==>
              var parts := Split(bytes, COLON);
              bytes == parts[0] + [COLON] + parts[1] && COLON !in parts[0] && COLON !in parts[1]
  {
    if |Split(bytes, COLON)| == 2 {
      TwoParts(bytes, COLON);
      NoPartHasSeparator(bytes, COLON);
    }
  }

  /** The cookie text is base64 of id, colon and secret. */
  lemma EncodesJoined(t: SplitToken)
    ensures Decode64(Encode(t)) == Some(t.id + [58] + t.secret)
  {
    RoundTrip64(t.id + [COLON] + t.secret);
  }

  /** Decoding undoes encoding exactly for non-empty parts without a colon. */
  lemma SplitTokenRoundTrip(t: SplitToken)
    ensures DecodeSplitToken(Encode(t)) == Some(t)
            <==> t.id != [] && t.secret != [] && COLON !in t.id && COLON !in t.secret
  {
    var joined: seq<Byte> := t.id + [COLON] + t.secret;
    RoundTrip64(joined);
    SplitParts(joined, COLON);
    assert multiset(joined)[COLON] == multiset(t.id)[COLON] + 1 + multiset(t.secret)[COLON];
    if COLON !in t.id && COLON !in t.secret {
      SplitJoined(t.id, t.secret, COLON);
      SplitWithout(t.secret, COLON);
    }
  }
}

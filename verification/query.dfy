/** Go's `url.Values` and its `Encode` method, the serialiser behind both the
    authorization link's query and the token requests' form bodies:

    - keys are written in ascending byte order, each key's values in the
      order they were added, as `key=value` pairs joined by `&`;
    - keys and values go through `url.QueryEscape`: the bytes of the UTF-8
      encoding that are unreserved in the sense of section 2.3 of RFC 3986
      pass through, a space becomes `+`, and every other byte is
      percent-encoded (section 2.1 of RFC 3986) with upper-case hex digits.

    `DecodeQuery` is an independent reference decoder (in the manner of
    `url.ParseQuery`); `EncodeDecode` proves that it recovers every pair. */
module Query {
  import opened Wrappers
  import opened Text

  type Byte = b: int | 0 <= b < 256

  /** `url.Values`: each key maps to the values added under it, in order. */
  type Values = map<string, seq<string>>

  /** `v[key]`: the values under `key`, none when the key is absent. */
  function Get(v: Values, key: string): seq<string>
  {
    if key in v then v[key] else []
  }

  /** `url.Values.Add`: appends `value` to the values under `key`. */
  function Add(v: Values, key: string, value: string): (r: Values)
    ensures r.Keys == v.Keys + {key}
    ensures r[key] == Get(v, key) + [value]
    ensures forall k :: k in v && k != key ==> r[k] == v[k]
  {
    v[key := Get(v, key) + [value]]
  }

  // ---------------------------------------------------------------------
  // Sorting the keys (Go: `slices.Sort(keys)` in `Values.Encode`)
  // ---------------------------------------------------------------------

  predicate IsLeast(m: string, s: set<string>)
  {
    m in s && forall y :: y in s && y != m ==> Less(m, y)
  }

  lemma {:induction false} LeastExists(s: set<string>)
    requires s != {}
    ensures exists m :: IsLeast(m, s)
  {
    var x :| x in s;
    if s == {x} {
      assert IsLeast(x, s);
    } else {
      var rest := s - {x};
      LeastExists(rest);
      var m :| IsLeast(m, rest);
      if Less(x, m) {
        forall y | y in s && y != x
          ensures Less(x, y)
        {
          if y != m {
            LessTransitive(x, m, y);
          }
        }
        assert IsLeast(x, s);
      } else {
        LessTotal(x, m);
        assert IsLeast(m, s);
      }
    }
  }

  lemma LeastIsUnique(s: set<string>)
    ensures forall a, b :: IsLeast(a, s) && IsLeast(b, s) ==> a == b
  {
    forall a, b | IsLeast(a, s) && IsLeast(b, s)
      ensures a == b
    {
      if a != b {
        LessAsymmetric(a, b);
      }
    }
  }

  /** The keys of a set in ascending order, each exactly once. */
  function SortedKeys(s: set<string>): (keys: seq<string>)
    ensures |keys| == |s|
    ensures forall k :: k in keys <==> k in s
    ensures StrictlySorted(keys)
  {
    if s == {} then []
    else
      LeastExists(s);
      LeastIsUnique(s);
      var m :| IsLeast(m, s);
      [m] + SortedKeys(s - {m})
  }

  lemma HeadIsMember(s: seq<string>)
    ensures |s| > 0 ==> s[0] in s
  {
  }

  /** Two strictly sorted sequences with the same elements are equal, so
      `SortedKeys` is the only ascending listing of a key set. */
  lemma {:induction false} SortedUnique(xs: seq<string>, ys: seq<string>)
    requires StrictlySorted(xs) && StrictlySorted(ys)
    requires forall k :: k in xs <==> k in ys
    ensures xs == ys
  {
    if |xs| == 0 || |ys| == 0 {
      HeadIsMember(xs);
      HeadIsMember(ys);
    } else {
      assert xs[0] in ys && ys[0] in xs;
      var j :| 0 <= j < |ys| && ys[j] == xs[0];
      var i :| 0 <= i < |xs| && xs[i] == ys[0];
      assert j == 0 || Less(ys[0], xs[0]);
      assert i == 0 || Less(xs[0], ys[0]);
      if i != 0 && j != 0 {
        LessAsymmetric(xs[0], ys[0]);
      }
      assert xs[0] == ys[0];
      forall k
        ensures k in xs[1..] <==> k in ys[1..]
      {
        if k in xs[1..] {
          var a :| 1 <= a < |xs| && xs[a] == k;
          assert Less(xs[0], k);
          LessIrreflexive(k);
          assert k in ys && k != ys[0];
        }
        if k in ys[1..] {
          var b :| 1 <= b < |ys| && ys[b] == k;
          assert Less(ys[0], k);
          LessIrreflexive(k);
          assert k in xs && k != xs[0];
        }
      }
      SortedUnique(xs[1..], ys[1..]);
      assert xs == [xs[0]] + xs[1..] && ys == [ys[0]] + ys[1..];
    }
  }

  /** A sequence whose neighbours are in order is strictly sorted. */
  lemma {:induction false} SortedFromNeighbours(xs: seq<string>)
    requires forall i :: 0 <= i < |xs| - 1 ==> Less(xs[i], xs[i + 1])
    ensures StrictlySorted(xs)
  {
    if |xs| > 1 {
      SortedFromNeighbours(xs[1..]);
      forall j | 1 <= j < |xs|
        ensures Less(xs[0], xs[j])
      {
        if j > 1 {
          assert Less(xs[1..][0], xs[1..][j - 1]);
          LessTransitive(xs[0], xs[1], xs[j]);
        }
      }
      forall i, j | 0 <= i < j < |xs|
        ensures Less(xs[i], xs[j])
      {
        if i > 0 {
          assert Less(xs[1..][i - 1], xs[1..][j - 1]);
        }
      }
    }
  }
  lemma SortedFive(a: string, b: string, c: string, d: string, e: string)
    requires Less(a, b) && Less(b, c) && Less(c, d) && Less(d, e)
    ensures StrictlySorted([a, b, c, d, e])
  {
    SortedFromNeighbours([a, b, c, d, e]);
  }

  lemma SortedSix(a: string, b: string, c: string, d: string, e: string, f: string)
    requires Less(a, b) && Less(b, c) && Less(c, d) && Less(d, e) && Less(e, f)
    ensures StrictlySorted([a, b, c, d, e, f])
  {
    SortedFromNeighbours([a, b, c, d, e, f]);
  }


  // ---------------------------------------------------------------------
  // Bytes and escaping (Go: `url.QueryEscape`)
  // ---------------------------------------------------------------------

  /** The UTF-8 encoding of one Unicode scalar value. */
  function Utf8Char(c: char): (bytes: seq<Byte>)
    ensures 1 <= |bytes| <= 4
    ensures |bytes| == 1 <==> c as int < 0x80
    ensures c as int < 0x80 ==> bytes == [c as int]
    ensures c as int >= 0x80 ==> forall i :: 0 <= i < |bytes| ==> bytes[i] >= 0x80
  {
    var n := c as int;
    if n < 0x80 then [n]
    else if n < 0x800 then [0xC0 + n / 64, 0x80 + n % 64]
    else if n < 0x10000 then [0xE0 + n / 4096, 0x80 + (n / 64) % 64, 0x80 + n % 64]
    else [0xF0 + n / 0x40000, 0x80 + (n / 4096) % 64, 0x80 + (n / 64) % 64, 0x80 + n % 64]
  }

  /** The UTF-8 encoding of a string: the bytes Go holds for it. */
  function Utf8(s: string): (bytes: seq<Byte>)
    ensures |bytes| >= |s|
  {
    if |s| == 0 then [] else Utf8Char(s[0]) + Utf8(s[1..])
  }

  lemma {:induction false} Utf8Append(a: string, b: string)
    ensures Utf8(a + b) == Utf8(a) + Utf8(b)
  {
    if |a| > 0 {
      assert (a + b)[1..] == a[1..] + b;
      Utf8Append(a[1..], b);
    } else {
      assert a + b == b;
    }
  }

  /** Section 2.3 of RFC 3986: ALPHA / DIGIT / "-" / "." / "_" / "~". */
  predicate IsUnreserved(b: int)
  {
    || ('a' as int <= b <= 'z' as int)
    || ('A' as int <= b <= 'Z' as int)
    || ('0' as int <= b <= '9' as int)
    || b == '-' as int || b == '_' as int || b == '.' as int || b == '~' as int
  }

  /** The characters `QueryEscape` may emit. */
  predicate IsQueryChar(c: char)
  {
    IsUnreserved(c as int) || c == '+' || c == '%'
  }

  /** Upper-case hexadecimal digit for 0..15. */
  function HexDigit(d: int): (c: char)
    requires 0 <= d < 16
    ensures IsUnreserved(c as int)
    ensures d < 10 ==> c as int == '0' as int + d
    ensures d >= 10 ==> c as int == 'A' as int + d - 10
  {
    if d < 10 then ('0' as int + d) as char else ('A' as int + d - 10) as char
  }

  /** How `url.QueryEscape` writes one byte. */
  function EscapeByte(b: Byte): (s: string)
    ensures IsUnreserved(b) ==> s == [b as char]
    ensures b == 0x20 ==> s == "+"
    ensures !IsUnreserved(b) && b != 0x20 ==> s == ['%', HexDigit(b / 16), HexDigit(b % 16)]
    ensures forall i :: 0 <= i < |s| ==> IsQueryChar(s[i])
  {
    if IsUnreserved(b) then [b as char]
    else if b == 0x20 then "+"
    else ['%', HexDigit(b / 16), HexDigit(b % 16)]
  }

  function EscapeBytes(bytes: seq<Byte>): (s: string)
    ensures |s| >= |bytes|
    ensures forall i :: 0 <= i < |s| ==> IsQueryChar(s[i])
  {
    if |bytes| == 0 then "" else EscapeByte(bytes[0]) + EscapeBytes(bytes[1..])
  }

  lemma {:induction false} EscapeBytesAppend(a: seq<Byte>, b: seq<Byte>)
    ensures EscapeBytes(a + b) == EscapeBytes(a) + EscapeBytes(b)
  {
    if |a| > 0 {
      assert (a + b)[1..] == a[1..] + b;
      EscapeBytesAppend(a[1..], b);
    } else {
      assert a + b == b;
    }
  }

  /** `url.QueryEscape(s)`. */
  function QueryEscape(s: string): (r: string)
    ensures forall i :: 0 <= i < |r| ==> IsQueryChar(r[i])
  {
    EscapeBytes(Utf8(s))
  }

  /** Escaping distributes over concatenation. */
  lemma QueryEscapeAppend(a: string, b: string)
    ensures QueryEscape(a + b) == QueryEscape(a) + QueryEscape(b)
  {
    Utf8Append(a, b);
    EscapeBytesAppend(Utf8(a), Utf8(b));
  }

  function EscapeAll(xs: seq<string>): (ys: seq<string>)
    ensures |ys| == |xs|
    ensures forall i :: 0 <= i < |xs| ==> ys[i] == QueryEscape(xs[i])
  {
    if |xs| == 0 then [] else [QueryEscape(xs[0])] + EscapeAll(xs[1..])
  }

  /** Words joined by single spaces escape to the escaped words joined by
      `+`. */
  lemma {:induction false} QueryEscapeJoin(xs: seq<string>)
    ensures QueryEscape(Join(xs, ' ')) == Join(EscapeAll(xs), '+')
  {
    if |xs| > 1 {
      QueryEscapeJoin(xs[1..]);
      QueryEscapeAppend(xs[0] + [' '], Join(xs[1..], ' '));
      QueryEscapeAppend(xs[0], [' ']);
      assert QueryEscape([' ']) == "+";
      assert EscapeAll(xs)[1..] == EscapeAll(xs[1..]);
    } else if |xs| == 0 {
      assert QueryEscape("") == "";
    }
  }

  /** Every character is an unreserved ASCII character. */
  predicate Unreserved(s: string)
  {
    forall i :: 0 <= i < |s| ==> IsUnreserved(s[i] as int)
  }

  /** A string of unreserved ASCII characters escapes to itself. */
  lemma {:induction false} QueryEscapeUnreserved(s: string)
    requires Unreserved(s)
    ensures QueryEscape(s) == s
  {
    if |s| > 0 {
      var tail := s[1..];
      assert Unreserved(tail) by {
        forall i | 0 <= i < |tail|
          ensures IsUnreserved(tail[i] as int)
        {
          assert tail[i] == s[i + 1];
        }
      }
      QueryEscapeUnreserved(tail);
      var bytes := Utf8(s);
      assert bytes == [s[0] as int] + Utf8(tail);
      assert bytes[1..] == Utf8(tail);
      assert EscapeBytes(bytes) == [s[0]] + EscapeBytes(Utf8(tail));
      assert [s[0]] + tail == s;
    }
  }

  /** A reserved ASCII character other than the space escapes to `%` and
      its two upper-case hex digits. */
  lemma QueryEscapeReserved(c: char)
    requires c as int < 0x80 && !IsUnreserved(c as int) && c != ' '
    ensures QueryEscape([c]) == ['%', HexDigit(c as int / 16), HexDigit(c as int % 16)]
  {
    assert Utf8([c]) == [c as int];
    assert EscapeBytes([c as int]) == EscapeByte(c as int);
  }

  lemma {:induction false} QueryEscapeFive(a: string, b: string, c: string, d: string, e: string)
    ensures QueryEscape(a + b + c + d + e)
         == QueryEscape(a) + QueryEscape(b) + QueryEscape(c) + QueryEscape(d) + QueryEscape(e)
  {
    QueryEscapeAppend(a, b);
    QueryEscapeAppend(a + b, c);
    QueryEscapeAppend(a + b + c, d);
    QueryEscapeAppend(a + b + c + d, e);
  }

  lemma EscapeColon()
    ensures QueryEscape(":") == "%3A"
  {
    QueryEscapeReserved(':');
  }

  lemma EscapeSlash()
    ensures QueryEscape("/") == "%2F"
  {
    QueryEscapeReserved('/');
  }

  lemma EscapeHttp()
    ensures QueryEscape("http") == "http"
  {
    QueryEscapeUnreserved("http");
  }

  lemma EscapeLocalhost()
    ensures QueryEscape("localhost") == "localhost"
  {
    LocalhostUnreserved();
    QueryEscapeUnreserved("localhost");
  }

  lemma LocalhostUnreserved()
    ensures Unreserved("localhost")
  {
  }

  lemma LocalhostPieces()
    ensures "http" + ":" + "/" + "/" + "localhost" == "http://localhost"
  {
  }

  lemma EscapedLocalhostPieces()
    ensures "http" + "%3A" + "%2F" + "%2F" + "localhost" == "http%3A%2F%2Flocalhost"
  {
  }

  /** The redirect address of the authentication-link tests escapes as
      the tests expect. */
  lemma QueryEscapeLocalhost()
    ensures QueryEscape("http://localhost") == "http%3A%2F%2Flocalhost"
  {
    LocalhostPieces();
    QueryEscapeFive("http", ":", "/", "/", "localhost");
    EscapeHttp();
    EscapeColon();
    EscapeSlash();
    EscapeLocalhost();
    EscapedLocalhostPieces();
  }

  /** Escaped text never holds the pair separators `&` and `=`. */
  lemma NoSeparators(s: string)
    ensures '&' !in QueryEscape(s) && '=' !in QueryEscape(s)
  {
    var r := QueryEscape(s);
    forall i | 0 <= i < |r|
      ensures r[i] != '&' && r[i] != '='
    {
      assert IsQueryChar(r[i]);
    }
  }

  // ---------------------------------------------------------------------
  // Values.Encode
  // ---------------------------------------------------------------------

  /** One `key=value` pair for every value under `key`. */
  function Tagged(key: string, values: seq<string>): (pairs: seq<(string, string)>)
    ensures |pairs| == |values|
    ensures forall i :: 0 <= i < |pairs| ==> pairs[i] == (key, values[i])
  {
    if |values| == 0 then [] else [(key, values[0])] + Tagged(key, values[1..])
  }

  function PairsFor(v: Values, keys: seq<string>): seq<(string, string)>
    requires forall k :: k in keys ==> k in v
  {
    if |keys| == 0 then [] else Tagged(keys[0], v[keys[0]]) + PairsFor(v, keys[1..])
  }

  /** The pairs of `v` in the order `Encode` writes them. */
  function Pairs(v: Values): seq<(string, string)>
  {
    PairsFor(v, SortedKeys(v.Keys))
  }

  function EncodePair(p: (string, string)): string
  {
    QueryEscape(p.0) + "=" + QueryEscape(p.1)
  }

  function EncodePairs(ps: seq<(string, string)>): (parts: seq<string>)
    ensures |parts| == |ps|
    ensures forall i :: 0 <= i < |ps| ==> parts[i] == EncodePair(ps[i])
  {
    if |ps| == 0 then [] else [EncodePair(ps[0])] + EncodePairs(ps[1..])
  }

  /** `url.Values.Encode`: empty exactly when there is no value to write. */
  function Encode(v: Values): (r: string)
    ensures r == "" <==> Pairs(v) == []
  {
    var parts := EncodePairs(Pairs(v));
    assert parts != [] ==> |parts[0]| > 0;
    Join(parts, '&')
  }

  lemma {:induction false} PairsForMembership(v: Values, keys: seq<string>, k: string, x: string)
    requires forall key :: key in keys ==> key in v
    ensures (k, x) in PairsFor(v, keys) <==> k in keys && x in v[k]
  {
    if |keys| > 0 {
      PairsForMembership(v, keys[1..], k, x);
      var head := Tagged(keys[0], v[keys[0]]);
      if (k, x) in head {
        var i :| 0 <= i < |head| && head[i] == (k, x);
        assert v[k][i] == x;
      }
      if k == keys[0] && x in v[k] {
        var i :| 0 <= i < |v[k]| && v[k][i] == x;
        assert head[i] == (k, x);
      }
    }
  }

  /** A pair is encoded exactly when its value was added under its key. */
  lemma PairsMembership(v: Values, k: string, x: string)
    ensures (k, x) in Pairs(v) <==> k in v && x in v[k]
  {
    PairsForMembership(v, SortedKeys(v.Keys), k, x);
  }

  /** Key order of the pairs: no key comes after a larger one. */
  predicate KeysAscending(ps: seq<(string, string)>)
  {
    forall i, j :: 0 <= i < j < |ps| ==> ps[i].0 == ps[j].0 || Less(ps[i].0, ps[j].0)
  }

  lemma {:induction false} PairsForAscending(v: Values, keys: seq<string>)
    requires forall k :: k in keys ==> k in v
    requires StrictlySorted(keys)
    ensures KeysAscending(PairsFor(v, keys))
    ensures forall p :: p in PairsFor(v, keys) ==> p.0 in keys
  {
    if |keys| > 0 {
      var head := Tagged(keys[0], v[keys[0]]);
      var rest := PairsFor(v, keys[1..]);
      assert StrictlySorted(keys[1..]) by {
        forall i, j | 0 <= i < j < |keys[1..]|
          ensures Less(keys[1..][i], keys[1..][j])
        {
          assert keys[1..][i] == keys[i + 1] && keys[1..][j] == keys[j + 1];
        }
      }
      PairsForAscending(v, keys[1..]);
      forall p | p in rest
        ensures Less(keys[0], p.0)
      {
        var a :| 1 <= a < |keys| && keys[a] == p.0;
      }
      var all := head + rest;
      forall i, j | 0 <= i < j < |all|
        ensures all[i].0 == all[j].0 || Less(all[i].0, all[j].0)
      {
        if i < |head| && j >= |head| {
          assert all[j] == rest[j - |head|];
          assert all[j] in rest;
        } else if i >= |head| {
          assert all[i] == rest[i - |head|] && all[j] == rest[j - |head|];
        }
      }
      forall p | p in all
        ensures p.0 in keys
      {
        if p in rest {
          assert p.0 in keys[1..];
        }
      }
    }
  }

  /** `Encode` writes its pairs with keys in ascending byte order. */
  lemma PairsAscending(v: Values)
    ensures KeysAscending(Pairs(v))
  {
    PairsForAscending(v, SortedKeys(v.Keys));
  }

  /** Pairs of the keys in order when every key holds exactly one value. */
  function Singles(v: Values, keys: seq<string>): (ps: seq<(string, string)>)
    requires forall k :: k in keys ==> k in v && |v[k]| == 1
    ensures |ps| == |keys|
    ensures forall i :: 0 <= i < |ps| ==> ps[i] == (keys[i], v[keys[i]][0])
  {
    if |keys| == 0 then [] else [(keys[0], v[keys[0]][0])] + Singles(v, keys[1..])
  }

  lemma {:induction false} PairsForSingles(v: Values, keys: seq<string>)
    requires forall k :: k in keys ==> k in v && |v[k]| == 1
    ensures PairsFor(v, keys) == Singles(v, keys)
  {
    if |keys| > 0 {
      PairsForSingles(v, keys[1..]);
      assert Tagged(keys[0], v[keys[0]]) == [(keys[0], v[keys[0]][0])];
    }
  }

  /** When every key holds one value and `keys` lists the key set in
      ascending order, `Encode` writes exactly one pair per key, in that
      order. */
  lemma PairsOfSingleValued(v: Values, keys: seq<string>)
    requires forall k :: k in v ==> |v[k]| == 1
    requires StrictlySorted(keys)
    requires forall k :: k in keys <==> k in v
    ensures Pairs(v) == Singles(v, keys)
  {
    SortedUnique(SortedKeys(v.Keys), keys);
    PairsForSingles(v, keys);
  }

  // ---------------------------------------------------------------------
  // Reference decoder
  // ---------------------------------------------------------------------

  predicate IsHex(c: char)
  {
    ('0' <= c <= '9') || ('a' <= c <= 'f') || ('A' <= c <= 'F')
  }

  function Unhex(c: char): (d: int)
    requires IsHex(c)
    ensures 0 <= d < 16
  {
    if '0' <= c <= '9' then c as int - '0' as int
    else if 'a' <= c <= 'f' then c as int - 'a' as int + 10
    else c as int - 'A' as int + 10
  }

  lemma HexDigitRoundTrip(d: int)
    requires 0 <= d < 16
    ensures IsHex(HexDigit(d)) && Unhex(HexDigit(d)) == d
  {
  }

  function Prepend(bytes: seq<Byte>, r: Option<seq<Byte>>): Option<seq<Byte>>
  {
    match r
    case None => None
    case Some(tail) => Some(bytes + tail)
  }

  /** Query-component unescaping: `%XY` is a byte, `+` a space, any other
      character its UTF-8 bytes; a `%` without two hex digits fails. */
  function Unescape(s: string): (r: Option<seq<Byte>>)
    decreases |s|
  {
    if |s| == 0 then Some([])
    else if s[0] == '%' then
      if |s| < 3 || !IsHex(s[1]) || !IsHex(s[2]) then None
      else Prepend([Unhex(s[1]) * 16 + Unhex(s[2])], Unescape(s[3..]))
    else if s[0] == '+' then Prepend([0x20], Unescape(s[1..]))
    else Prepend(Utf8Char(s[0]), Unescape(s[1..]))
  }

  lemma UnescapeEscapeByte(b: Byte, rest: string)
    ensures Unescape(EscapeByte(b) + rest) == Prepend([b], Unescape(rest))
  {
    var s := EscapeByte(b) + rest;
    if IsUnreserved(b) {
      assert s[0] == b as char && s[1..] == rest;
    } else if b == 0x20 {
      assert s[0] == '+' && s[1..] == rest;
    } else {
      HexDigitRoundTrip(b / 16);
      HexDigitRoundTrip(b % 16);
      assert s[0] == '%' && s[1] == HexDigit(b / 16) && s[2] == HexDigit(b % 16);
      assert s[3..] == rest;
    }
  }

  /** Unescaping undoes escaping, byte for byte. */
  lemma {:induction false} UnescapeEscape(bytes: seq<Byte>)
    ensures Unescape(EscapeBytes(bytes)) == Some(bytes)
  {
    if |bytes| > 0 {
      UnescapeEscape(bytes[1..]);
      UnescapeEscapeByte(bytes[0], EscapeBytes(bytes[1..]));
      assert [bytes[0]] + bytes[1..] == bytes;
    }
  }

  function BytePairs(ps: seq<(string, string)>): (r: seq<(seq<Byte>, seq<Byte>)>)
    ensures |r| == |ps|
  {
    if |ps| == 0 then [] else [(Utf8(ps[0].0), Utf8(ps[0].1))] + BytePairs(ps[1..])
  }

  function DecodeParts(parts: seq<string>): Option<seq<(seq<Byte>, seq<Byte>)>>
  {
    if |parts| == 0 then Some([])
    else
      var (key, value, _) := Cut(parts[0], '=');
      match (Unescape(key), Unescape(value), DecodeParts(parts[1..]))
      case (Some(k), Some(x), Some(rest)) => Some([(k, x)] + rest)
      case _ => None
  }

  /** Splits a query at `&`, each pair at its first `=`, and unescapes both
      halves. */
  function DecodeQuery(q: string): Option<seq<(seq<Byte>, seq<Byte>)>>
  {
    if q == "" then Some([]) else DecodeParts(Split(q, '&'))
  }

  lemma {:induction false} DecodeEncodedPairs(ps: seq<(string, string)>)
    ensures DecodeParts(EncodePairs(ps)) == Some(BytePairs(ps))
  {
    if |ps| > 0 {
      var k := QueryEscape(ps[0].0);
      var x := QueryEscape(ps[0].1);
      NoSeparators(ps[0].0);
      CutAt(k, x, '=');
      assert EncodePair(ps[0]) == k + ['='] + x;
      UnescapeEscape(Utf8(ps[0].0));
      UnescapeEscape(Utf8(ps[0].1));
      DecodeEncodedPairs(ps[1..]);
      assert EncodePairs(ps)[1..] == EncodePairs(ps[1..]);
    }
  }

  /** Round trip: decoding the encoded query gives back every pair, in the
      order written, as the UTF-8 bytes of its key and value. */
  lemma EncodeDecode(v: Values)
    ensures DecodeQuery(Encode(v)) == Some(BytePairs(Pairs(v)))
  {
    var ps := Pairs(v);
    var parts := EncodePairs(ps);
    DecodeEncodedPairs(ps);
    if |parts| > 0 {
      forall i | 0 <= i < |parts|
        ensures '&' !in parts[i]
      {
        NoSeparators(ps[i].0);
        NoSeparators(ps[i].1);
      }
      SplitJoin(parts, '&');
      assert Encode(v) != "" by {
        assert |parts[0]| > 0;
        if |parts| > 1 {
          assert Join(parts, '&') == parts[0] + ['&'] + Join(parts[1..], '&');
        }
      }
    }
  }

  // ---------------------------------------------------------------------
  // Path escaping (Go: `URL.EscapedPath`)
  // ---------------------------------------------------------------------

  /** Bytes a URL path keeps as they are: the unreserved ones and
      `$ & + , / : ; = @`. Of the reserved characters only `?` is escaped,
      and a space becomes `%20`, not `+`. */
  predicate IsPathByte(b: int)
  {
    || IsUnreserved(b)
    || b == '$' as int || b == '&' as int || b == '+' as int || b == ',' as int
    || b == '/' as int || b == ':' as int || b == ';' as int || b == '=' as int
    || b == '@' as int
  }

  /** The characters an escaped path may hold. */
  predicate IsPathChar(c: char)
  {
    IsPathByte(c as int) || c == '%'
  }

  /** Every character is one a path keeps as it is. */
  predicate PlainPath(s: string)
  {
    forall i :: 0 <= i < |s| ==> IsPathByte(s[i] as int)
  }

  function EscapePathByte(b: Byte): (s: string)
    ensures forall i :: 0 <= i < |s| ==> IsPathChar(s[i])
  {
    if IsPathByte(b) then [b as char] else ['%', HexDigit(b / 16), HexDigit(b % 16)]
  }

  function EscapePathBytes(bytes: seq<Byte>): (s: string)
    ensures forall i :: 0 <= i < |s| ==> IsPathChar(s[i])
  {
    if |bytes| == 0 then "" else EscapePathByte(bytes[0]) + EscapePathBytes(bytes[1..])
  }

  /** Go's `escape(path, encodePath)`, on the UTF-8 bytes of the path. */
  function EscapePath(s: string): (r: string)
    ensures forall i :: 0 <= i < |r| ==> IsPathChar(r[i])
  {
    EscapePathBytes(Utf8(s))
  }

  /** `URL.EscapedPath()` of a URL without a raw path: the path `*` is
      written as it is, any other path escaped. */
  function EscapedPath(path: string): (r: string)
    ensures forall i :: 0 <= i < |r| ==> IsPathChar(r[i]) || r == "*"
  {
    if path == "*" then "*" else EscapePath(path)
  }

  lemma {:induction false} EscapePathBytesAppend(a: seq<Byte>, b: seq<Byte>)
    ensures EscapePathBytes(a + b) == EscapePathBytes(a) + EscapePathBytes(b)
  {
    if |a| > 0 {
      assert (a + b)[1..] == a[1..] + b;
      EscapePathBytesAppend(a[1..], b);
    } else {
      assert a + b == b;
    }
  }

  /** Path escaping distributes over concatenation. */
  lemma EscapePathAppend(a: string, b: string)
    ensures EscapePath(a + b) == EscapePath(a) + EscapePath(b)
  {
    Utf8Append(a, b);
    EscapePathBytesAppend(Utf8(a), Utf8(b));
  }

  /** A path of characters a path keeps is written as it is. */
  lemma {:induction false} EscapePathPlain(s: string)
    requires PlainPath(s)
    ensures EscapePath(s) == s
  {
    if |s| > 0 {
      var tail := s[1..];
      assert PlainPath(tail) by {
        forall i | 0 <= i < |tail|
          ensures IsPathByte(tail[i] as int)
        {
          assert tail[i] == s[i + 1];
        }
      }
      EscapePathPlain(tail);
      var bytes := Utf8(s);
      assert bytes == [s[0] as int] + Utf8(tail);
      assert bytes[1..] == Utf8(tail);
      assert EscapePathBytes(bytes) == [s[0]] + EscapePathBytes(Utf8(tail));
      assert [s[0]] + tail == s;
    }
  }

  /** A plain path, which never is `*`, is its own escaped form. */
  lemma EscapedPathPlain(s: string)
    requires PlainPath(s)
    ensures EscapedPath(s) == s
  {
    if |s| > 0 {
      assert IsPathByte(s[0] as int);
    }
    EscapePathPlain(s);
  }

  /** A path that starts with `/` keeps it first once escaped. */
  lemma EscapedPathRooted(s: string)
    requires |s| > 0 && s[0] == '/'
    ensures |EscapedPath(s)| > 0 && EscapedPath(s)[0] == '/'
  {
    assert s == s[..1] + s[1..];
    EscapePathAppend(s[..1], s[1..]);
    EscapePathPlain(s[..1]);
  }

  /** A space between two plain words of a path is written `%20`. */
  lemma EscapePathSpaced(a: string, b: string)
    requires PlainPath(a) && PlainPath(b)
    ensures EscapePath(a + " " + b) == a + "%20" + b
  {
    EscapePathAppend(a, " ");
    EscapePathAppend(a + " ", b);
    EscapePathPlain(a);
    EscapePathPlain(b);
    EscapePathSpace();
  }

  lemma EscapePathSpace()
    ensures EscapePath(" ") == "%20"
  {
    assert Utf8(" ") == [0x20];
    assert EscapePathBytes([0x20]) == EscapePathByte(0x20);
  }

  /** A space inside a path is written `%20`: the account ID `a b`
      becomes `a%20b`. */
  lemma EscapedPathSpace()
    ensures EscapedPath("a b") == "a%20b"
  {
    SpacedWords();
    EscapePathSpaced("a", "b");
  }

  lemma SpacedWords()
    ensures "a" + " " + "b" == "a b" && "a" + "%20" + "b" == "a%20b"
    ensures PlainPath("a") && PlainPath("b")
  {
  }

  /** Path unescaping, Go's `unescape(s, encodePath)`: `%XY` is a byte and
      any other character its UTF-8 bytes; unlike a query a `+` stays a
      `+`, and a `%` without two hex digits fails. */
  function PathUnescape(s: string): (r: Option<seq<Byte>>)
    decreases |s|
  {
    if |s| == 0 then Some([])
    else if s[0] == '%' then
      if |s| < 3 || !IsHex(s[1]) || !IsHex(s[2]) then None
      else Prepend([Unhex(s[1]) * 16 + Unhex(s[2])], PathUnescape(s[3..]))
    else Prepend(Utf8Char(s[0]), PathUnescape(s[1..]))
  }

  lemma PathUnescapeEscapeByte(b: Byte, rest: string)
    ensures PathUnescape(EscapePathByte(b) + rest) == Prepend([b], PathUnescape(rest))
  {
    var s := EscapePathByte(b) + rest;
    if IsPathByte(b) {
      assert s[0] == b as char && s[1..] == rest;
    } else {
      HexDigitRoundTrip(b / 16);
      HexDigitRoundTrip(b % 16);
      assert s[0] == '%' && s[1] == HexDigit(b / 16) && s[2] == HexDigit(b % 16);
      assert s[3..] == rest;
    }
  }

  lemma {:induction false} PathUnescapeEscapeBytes(bytes: seq<Byte>)
    ensures PathUnescape(EscapePathBytes(bytes)) == Some(bytes)
  {
    if |bytes| > 0 {
      PathUnescapeEscapeBytes(bytes[1..]);
      PathUnescapeEscapeByte(bytes[0], EscapePathBytes(bytes[1..]));
      assert [bytes[0]] + bytes[1..] == bytes;
    }
  }

  /** Round trip: unescaping the escaped path gives back the UTF-8 bytes of
      the path, so distinct paths are written differently. */
  lemma EscapedPathRoundTrip(path: string)
    ensures PathUnescape(EscapedPath(path)) == Some(Utf8(path))
  {
    if path == "*" {
      assert PathUnescape("*") == Prepend(Utf8Char('*'), PathUnescape(""));
    } else {
      PathUnescapeEscapeBytes(Utf8(path));
    }
  }
}

/** The application/x-www-form-urlencoded serializer of the WHATWG URL Standard
    (section 5.2, "application/x-www-form-urlencoded serializing"), which
    `URLSearchParams.toString()` runs, and a reference parser that undoes it.

    Each name and value is UTF-8 encoded and percent-encoded with upper-case hex
    digits, except the ASCII alphanumerics and `*-._`, which stay as they are,
    and the space, which becomes `+`. The pairs are written `name=value` and
    separated by `&`. */
module UrlEncoded {
  import opened CommonTypes

  type Byte = b: int | 0 <= b < 256

  /** A name-value pair of a query string. */
  type Pair = (string, string)

  predicate IsAsciiAlphanumeric(c: char)
  {
    'a' <= c <= 'z' || 'A' <= c <= 'Z' || '0' <= c <= '9'
  }

  /** The code points the urlencoded percent-encode set leaves out. */
  predicate IsUnreserved(c: char)
  {
    IsAsciiAlphanumeric(c) || c == '*' || c == '-' || c == '.' || c == '_'
  }

  predicate IsScalar(n: int)
  {
    0 <= n < 0xD800 || 0xE000 <= n < 0x11_0000
  }

  // ---------------------------------------------------------------------------
  // UTF-8 and percent-encoding of one code point
  // ---------------------------------------------------------------------------

  /** The UTF-8 encoding of one Unicode scalar value. */
  function Utf8(c: char): (bs: seq<Byte>)
    ensures 1 <= |bs| <= 4
  {
    var n := c as int;
    if n < 0x80 then [n]
    else if n < 0x800 then [0xC0 + n / 64, 0x80 + n % 64]
    else if n < 0x1_0000 then [0xE0 + n / 4096, 0x80 + (n / 64) % 64, 0x80 + n % 64]
    else [0xF0 + n / 262144, 0x80 + (n / 4096) % 64, 0x80 + (n / 64) % 64, 0x80 + n % 64]
  }

  /** An upper-case hexadecimal digit. */
  function HexDigit(d: int): (c: char)
    requires 0 <= d < 16
    ensures '0' <= c <= '9' || 'A' <= c <= 'F'
  {
    if d < 10 then ('0' as int + d) as char else ('A' as int + d - 10) as char
  }

  /** The value of a hexadecimal digit of either case. */
  function HexValue(c: char): (v: Option<int>)
    ensures v.Some? ==> 0 <= v.value < 16
  {
    if '0' <= c <= '9' then Some(c as int - '0' as int)
    else if 'A' <= c <= 'F' then Some(c as int - 'A' as int + 10)
    else if 'a' <= c <= 'f' then Some(c as int - 'a' as int + 10)
    else None
  }

  lemma HexRoundTrip(d: int)
    requires 0 <= d < 16
    ensures HexValue(HexDigit(d)) == Some(d)
  {
  }

  /** `%XY` for one byte. */
  function PercentByte(b: Byte): string
  {
    ['%', HexDigit(b / 16), HexDigit(b % 16)]
  }

  function PercentBytes(bs: seq<Byte>): (s: string)
    ensures |s| == 3 * |bs|
  {
    if bs == [] then [] else PercentByte(bs[0]) + PercentBytes(bs[1..])
  }

  /** The serializer's output for one code point. */
  function EncodeChar(c: char): (s: string)
    ensures |s| >= 1
    ensures '&' !in s && '=' !in s
  {
    if IsUnreserved(c) then [c]
    else if c == ' ' then "+"
    else
      var bs := Utf8(c);
      PercentBytesShape(bs);
      PercentBytes(bs)
  }

  /** Percent-encoded bytes consist of `%` and hex digits only. */
  lemma {:induction false} PercentBytesShape(bs: seq<Byte>)
    ensures forall i :: 0 <= i < |PercentBytes(bs)| ==>
              PercentBytes(bs)[i] == '%' || '0' <= PercentBytes(bs)[i] <= '9' || 'A' <= PercentBytes(bs)[i] <= 'F'
  {
    if bs != [] {
      PercentBytesShape(bs[1..]);
      assert PercentBytes(bs) == PercentByte(bs[0]) + PercentBytes(bs[1..]);
    }
  }

  /** Percent-encoding of a whole name or value. */
  function Encode(s: string): (r: string)
    ensures '&' !in r && '=' !in r
  {
    if s == [] then [] else EncodeChar(s[0]) + Encode(s[1..])
  }

  // ---------------------------------------------------------------------------
  // Serializing a list of pairs
  // ---------------------------------------------------------------------------

  function SerializePair(p: Pair): (s: string)
    ensures '&' !in s && |s| > 0
  {
    Encode(p.0) + "=" + Encode(p.1)
  }

  /** The serializer: for each pair, an `&` first unless the output is still
      empty, then the encoded pair. */
  function Serialize(ps: seq<Pair>): (s: string)
    ensures s == "" <==> ps == []
  {
    if ps == [] then ""
    else
      var init := Serialize(ps[..|ps| - 1]);
      (if init == "" then "" else init + "&") + SerializePair(ps[|ps| - 1])
  }

  // ---------------------------------------------------------------------------
  // A reference parser: the inverse of the serializer
  // ---------------------------------------------------------------------------

  /** Split at every occurrence of `sep`, as JavaScript's `split` does: always
      at least one piece. */
  function Split(q: string, sep: char): (pieces: seq<string>)
    ensures |pieces| >= 1
  {
    if q == [] then [""]
    else
      var init := Split(q[..|q| - 1], sep);
      var last := q[|q| - 1];
      if last == sep then init + [""]
      else init[..|init| - 1] + [init[|init| - 1] + [last]]
  }

  /** Split at the first `sep`: before it and after it, or everything and "". */
  function SplitFirst(s: string, sep: char): (string, string)
  {
    if s == [] then ("", "")
    else if s[0] == sep then ("", s[1..])
    else
      var (before, after) := SplitFirst(s[1..], sep);
      ([s[0]] + before, after)
  }

  /** The byte written as `%XY` at position `i` of `s`, if there is one. */
  function ByteAt(s: string, i: nat): (b: Option<Byte>)
  {
    if i + 3 <= |s| && s[i] == '%' then
      match (HexValue(s[i + 1]), HexValue(s[i + 2]))
      case (Some(h), Some(l)) => Some(16 * h + l)
      case _ => None
    else None
  }

  /** The payload of a UTF-8 continuation byte written as `%XY` at position `i`. */
  function ContinuationAt(s: string, i: nat): (v: Option<int>)
    ensures v.Some? ==> 0 <= v.value < 64
  {
    match ByteAt(s, i)
    case Some(b) => if 0x80 <= b < 0xC0 then Some(b - 0x80) else None
    case None => None
  }

  function ScalarOf(n: int, width: nat): Option<(char, nat)>
  {
    if IsScalar(n) then Some((n as char, width)) else None
  }

  /** Decode one code point written as one to four `%XY` bytes at the start of
      `s`; the second component is the number of characters used. */
  function DecodePercent(s: string): (r: Option<(char, nat)>)
    ensures r.Some? ==> 3 <= r.value.1 <= |s|
  {
    match ByteAt(s, 0)
    case None => None
    case Some(b0) =>
      if b0 < 0x80 then Some((b0 as char, 3))
      else if 0xC0 <= b0 < 0xE0 then
        if |s| < 6 then None
        else match ContinuationAt(s, 3)
          case Some(c1) => ScalarOf((b0 - 0xC0) * 64 + c1, 6)
          case None => None
      else if 0xE0 <= b0 < 0xF0 then
        if |s| < 9 then None
        else match (ContinuationAt(s, 3), ContinuationAt(s, 6))
          case (Some(c1), Some(c2)) => ScalarOf((b0 - 0xE0) * 4096 + c1 * 64 + c2, 9)
          case _ => None
      else if 0xF0 <= b0 < 0xF8 then
        if |s| < 12 then None
        else match (ContinuationAt(s, 3), ContinuationAt(s, 6), ContinuationAt(s, 9))
          case (Some(c1), Some(c2), Some(c3)) =>
            ScalarOf((b0 - 0xF0) * 262144 + c1 * 4096 + c2 * 64 + c3, 12)
          case _ => None
      else None
  }

  /** Decode a percent-encoded name or value: `+` is a space, `%XY...` a code
      point, anything else stands for itself. */
  function Decode(s: string): (r: Option<string>)
    decreases |s|
  {
    if s == [] then Some([])
    else if s[0] == '%' then
      match DecodePercent(s)
      case None => None
      case Some((c, k)) =>
        match Decode(s[k..])
        case None => None
        case Some(t) => Some([c] + t)
    else
      match Decode(s[1..])
      case None => None
      case Some(t) => Some([if s[0] == '+' then ' ' else s[0]] + t)
  }

  function ParsePair(segment: string): Option<Pair>
  {
    var (name, value) := SplitFirst(segment, '=');
    match (Decode(name), Decode(value))
    case (Some(n), Some(v)) => Some((n, v))
    case _ => None
  }

  /** Parse the `&`-separated segments, skipping empty ones. */
  function ParseSegments(segments: seq<string>): Option<seq<Pair>>
  {
    if segments == [] then Some([])
    else
      var last := segments[|segments| - 1];
      match ParseSegments(segments[..|segments| - 1])
      case None => None
      case Some(init) =>
        if last == "" then Some(init)
        else match ParsePair(last)
          case None => None
          case Some(p) => Some(init + [p])
  }

  function ParseQuery(q: string): Option<seq<Pair>>
  {
    ParseSegments(Split(q, '&'))
  }

  // ---------------------------------------------------------------------------
  // The round trip
  // ---------------------------------------------------------------------------

  lemma {:induction false} PercentBytesAt(bs: seq<Byte>, i: nat, rest: string)
    requires i < |bs|
    ensures ByteAt(PercentBytes(bs) + rest, 3 * i) == Some(bs[i])
  {
    if i == 0 {
      var s := PercentBytes(bs) + rest;
      assert s[..3] == PercentByte(bs[0]);
      HexRoundTrip(bs[0] / 16);
      HexRoundTrip(bs[0] % 16);
    } else {
      PercentBytesAt(bs[1..], i - 1, rest);
      assert PercentBytes(bs) + rest == PercentByte(bs[0]) + (PercentBytes(bs[1..]) + rest);
      var s := PercentBytes(bs) + rest;
      var t := PercentBytes(bs[1..]) + rest;
      assert s[3 * i..3 * i + 3] == t[3 * (i - 1)..3 * (i - 1) + 3];
    }
  }

  lemma Digits(n: int)
    requires 0 <= n
    ensures (n / 64) / 64 == n / 4096
    ensures (n / 4096) / 64 == n / 262144
    ensures n == (n / 64) * 64 + n % 64
    ensures n / 64 == (n / 4096) * 64 + (n / 64) % 64
    ensures n / 4096 == (n / 262144) * 64 + (n / 4096) % 64
  {
  }

  lemma DecodeWidth1(c: char, rest: string)
    requires c as int < 0x80
    ensures DecodePercent(PercentBytes(Utf8(c)) + rest) == Some((c, 3))
  {
    PercentBytesAt(Utf8(c), 0, rest);
  }

  lemma DecodeWidth2(c: char, rest: string)
    requires 0x80 <= c as int < 0x800
    ensures DecodePercent(PercentBytes(Utf8(c)) + rest) == Some((c, 6))
  {
    var n := c as int;
    var bs := Utf8(c);
    var s := PercentBytes(bs) + rest;
    assert bs == [0xC0 + n / 64, 0x80 + n % 64];
    PercentBytesAt(bs, 0, rest);
    PercentBytesAt(bs, 1, rest);
    assert ContinuationAt(s, 3) == Some(n % 64);
    assert (bs[0] - 0xC0) * 64 + n % 64 == n;
  }

  lemma DecodeWidth3(c: char, rest: string)
    requires 0x800 <= c as int < 0x1_0000
    ensures DecodePercent(PercentBytes(Utf8(c)) + rest) == Some((c, 9))
  {
    var n := c as int;
    var bs := Utf8(c);
    var s := PercentBytes(bs) + rest;
    assert bs == [0xE0 + n / 4096, 0x80 + (n / 64) % 64, 0x80 + n % 64];
    Digits(n);
    PercentBytesAt(bs, 0, rest);
    PercentBytesAt(bs, 1, rest);
    PercentBytesAt(bs, 2, rest);
    assert ContinuationAt(s, 3) == Some((n / 64) % 64);
    assert ContinuationAt(s, 6) == Some(n % 64);
    assert (bs[0] - 0xE0) * 4096 + ((n / 64) % 64) * 64 + n % 64 == n;
  }

  lemma DecodeWidth4(c: char, rest: string)
    requires 0x1_0000 <= c as int
    ensures DecodePercent(PercentBytes(Utf8(c)) + rest) == Some((c, 12))
  {
    var n := c as int;
    var bs := Utf8(c);
    var s := PercentBytes(bs) + rest;
    assert bs == [0xF0 + n / 262144, 0x80 + (n / 4096) % 64, 0x80 + (n / 64) % 64, 0x80 + n % 64];
    Digits(n);
    PercentBytesAt(bs, 0, rest);
    PercentBytesAt(bs, 1, rest);
    PercentBytesAt(bs, 2, rest);
    PercentBytesAt(bs, 3, rest);
    assert ContinuationAt(s, 3) == Some((n / 4096) % 64);
    assert ContinuationAt(s, 6) == Some((n / 64) % 64);
    assert ContinuationAt(s, 9) == Some(n % 64);
    assert (bs[0] - 0xF0) * 262144 + ((n / 4096) % 64) * 4096 + ((n / 64) % 64) * 64 + n % 64 == n;
  }

  /** Decoding the percent-encoded UTF-8 bytes of a code point gives it back. */
  lemma DecodePercentUtf8(c: char, rest: string)
    ensures var e := PercentBytes(Utf8(c));
            DecodePercent(e + rest) == Some((c, |e|))
  {
    var n := c as int;
    if n < 0x80 {
      DecodeWidth1(c, rest);
    } else if n < 0x800 {
      DecodeWidth2(c, rest);
    } else if n < 0x1_0000 {
      DecodeWidth3(c, rest);
    } else {
      DecodeWidth4(c, rest);
    }
  }

  /** Decoding undoes percent-encoding. */
  lemma {:induction false} DecodeEncode(s: string)
    ensures Decode(Encode(s)) == Some(s)
  {
    if s != [] {
      var c := s[0];
      var e := EncodeChar(c);
      var tail := Encode(s[1..]);
      DecodeEncode(s[1..]);
      assert Encode(s) == e + tail;
      if IsUnreserved(c) || c == ' ' {
        assert (e + tail)[0] == e[0] && (e + tail)[1..] == tail;
        assert [if e[0] == '+' then ' ' else e[0]] + s[1..] == s;
      } else {
        var bs := Utf8(c);
        assert e == PercentByte(bs[0]) + PercentBytes(bs[1..]);
        assert (e + tail)[0] == '%';
        DecodePercentUtf8(c, tail);
        assert (e + tail)[|e|..] == tail;
        assert [c] + s[1..] == s;
      }
    }
  }

  lemma {:induction false} SplitWithout(x: string, sep: char)
    requires sep !in x
    ensures Split(x, sep) == [x]
  {
    if x != [] {
      var init := x[..|x| - 1];
      assert sep !in init by {
        forall i | 0 <= i < |init| ensures init[i] != sep {
          assert init[i] == x[i];
        }
      }
      SplitWithout(init, sep);
      assert init + [x[|x| - 1]] == x;
    }
  }

  lemma {:induction false} SplitAfterSeparator(x: string, sep: char, y: string)
    requires sep !in y
    ensures Split(x + [sep] + y, sep) == Split(x, sep) + [y]
  {
    if y == [] {
      assert (x + [sep] + y)[..|x + [sep] + y| - 1] == x;
    } else {
      var y' := y[..|y| - 1];
      SplitAfterSeparator(x, sep, y');
      assert (x + [sep] + y)[..|x + [sep] + y| - 1] == x + [sep] + y';
      assert y' + [y[|y| - 1]] == y;
    }
  }

  lemma {:induction false} SplitFirstAt(x: string, sep: char, y: string)
    requires sep !in x
    ensures SplitFirst(x + [sep] + y, sep) == (x, y)
  {
    if x == [] {
      assert (x + [sep] + y)[1..] == y;
    } else {
      assert sep !in x[1..];
      SplitFirstAt(x[1..], sep, y);
      assert (x + [sep] + y)[0] == x[0];
      assert (x + [sep] + y)[1..] == x[1..] + [sep] + y;
      assert [x[0]] + x[1..] == x;
    }
  }

  /** The `&`-separated segments of a serialized list. */
  function Segments(ps: seq<Pair>): seq<string>
  {
    if ps == [] then [] else Segments(ps[..|ps| - 1]) + [SerializePair(ps[|ps| - 1])]
  }

  lemma {:induction false} SplitSerialize(ps: seq<Pair>)
    requires ps != []
    ensures Split(Serialize(ps), '&') == Segments(ps)
  {
    var init := ps[..|ps| - 1];
    var last := SerializePair(ps[|ps| - 1]);
    if init == [] {
      SplitWithout(last, '&');
      assert Serialize(ps) == last;
      assert Segments(ps) == [last];
    } else {
      SplitSerialize(init);
      SplitAfterSeparator(Serialize(init), '&', last);
      assert Serialize(init) + "&" + last == Serialize(init) + ['&'] + last;
    }
  }

  lemma {:induction false} ParseSegmentsOfPairs(ps: seq<Pair>)
    ensures ParseSegments(Segments(ps)) == Some(ps)
  {
    if ps != [] {
      var init := ps[..|ps| - 1];
      var p := ps[|ps| - 1];
      ParseSegmentsOfPairs(init);
      var segs := Segments(ps);
      assert segs[..|segs| - 1] == Segments(init);
      SplitFirstAt(Encode(p.0), '=', Encode(p.1));
      assert SerializePair(p) == Encode(p.0) + ['='] + Encode(p.1);
      DecodeEncode(p.0);
      DecodeEncode(p.1);
      assert ParsePair(SerializePair(p)) == Some(p);
      assert init + [p] == ps;
    }
  }

  /** Parsing the serializer's output gives back the list of pairs it serialized,
      in order: nothing is lost, merged or reordered. */
  lemma {:induction false} ParseSerialize(ps: seq<Pair>)
    ensures ParseQuery(Serialize(ps)) == Some(ps)
  {
    if ps == [] {
      assert Split("", '&') == [""];
      assert ParseSegments([""]) == ParseSegments([]) by {
        assert [""][..0] == [];
      }
    } else {
      SplitSerialize(ps);
      ParseSegmentsOfPairs(ps);
    }
  }
}

// Image payloads (crates/arky-claude-code/src/conversion.rs): base64 as in section 4 of
// RFC 4648, and data URLs as in section 3 of RFC 2397.

/** Bytes as groups of six bits, with no alphabet yet. */
module SixBitGroups {
  import opened Prelude

  type Byte = bv8

  type Six = bv6

  function Six0(a: Byte): Six { (a >> 2) as Six }
  function Six1(a: Byte, b: Byte): Six { (((a & 3) << 4) | (b >> 4)) as Six }
  function Six2(b: Byte, c: Byte): Six { (((b & 15) << 2) | (c >> 6)) as Six }
  function Six3(c: Byte): Six { (c & 63) as Six }

  function Byte0(p: Six, q: Six): Byte { ((p as Byte) << 2) | ((q as Byte) >> 4) }
  function Byte1(q: Six, r: Six): Byte { ((q as Byte) << 4) | ((r as Byte) >> 2) }
  function Byte2(r: Six, t: Six): Byte { ((r as Byte) << 6) | (t as Byte) }

  /** The bits of the bytes, six at a time, the last group filled with zeros. */
  function Pack(data: seq<Byte>): seq<Six> {
    if data == [] then []
    else if |data| == 1 then [Six0(data[0]), Six1(data[0], 0)]
    else if |data| == 2 then [Six0(data[0]), Six1(data[0], data[1]), Six2(data[1], 0)]
    else Four(data[0], data[1], data[2]) + Pack(data[3..])
  }

  function Four(a: Byte, b: Byte, c: Byte): seq<Six> {
    [Six0(a), Six1(a, b), Six2(b, c), Six3(c)]
  }

  /** The bytes of groups, unless a group is missing or the filling is not zero. */
  function Unpack(x: seq<Six>): Option<seq<Byte>> {
    if x == [] then Some([])
    else if |x| == 1 then None
    else if |x| == 2 then if x[1] & 15 == 0 then Some([Byte0(x[0], x[1])]) else None
    else if |x| == 3 then if x[2] & 3 == 0 then Some([Byte0(x[0], x[1]), Byte1(x[1], x[2])]) else None
    else
      match Unpack(x[4..])
      case Some(rest) => Some([Byte0(x[0], x[1]), Byte1(x[1], x[2]), Byte2(x[2], x[3])] + rest)
      case None => None
  }

  lemma {:induction false} BytesOfSixes(a: Byte, b: Byte, c: Byte)
    ensures Byte0(Six0(a), Six1(a, b)) == a
    ensures Byte1(Six1(a, b), Six2(b, c)) == b
    ensures Byte2(Six2(b, c), Six3(c)) == c
    ensures Six1(a, 0) & 15 == 0 && Six2(b, 0) & 3 == 0
  {}

  lemma {:induction false} SixesOfBytes(p: Six, q: Six, r: Six, t: Six)
    ensures Six0(Byte0(p, q)) == p
    ensures Six1(Byte0(p, q), Byte1(q, r)) == q
    ensures Six2(Byte1(q, r), Byte2(r, t)) == r
    ensures Six3(Byte2(r, t)) == t
    ensures q & 15 == 0 ==> Six1(Byte0(p, q), 0) == q
    ensures r & 3 == 0 ==> Six2(Byte1(q, r), 0) == r
  {}

  lemma {:induction false} UnpackInvertsPack(data: seq<Byte>)
    ensures Unpack(Pack(data)) == Some(data)
  {
    if data == [] {
    } else if |data| == 1 {
      BytesOfSixes(data[0], 0, 0);
      assert [data[0]] == data;
    } else if |data| == 2 {
      BytesOfSixes(data[0], data[1], 0);
      assert [data[0], data[1]] == data;
    } else {
      BytesOfSixes(data[0], data[1], data[2]);
      UnpackInvertsPack(data[3..]);
      assert Pack(data)[4..] == Pack(data[3..]);
      assert [data[0], data[1], data[2]] + data[3..] == data;
    }
  }

  lemma {:induction false} PackInvertsUnpack(x: seq<Six>)
    requires Unpack(x).Some?
    ensures Pack(Unpack(x).value) == x
  {
    if x == [] {
    } else if |x| == 2 {
      SixesOfBytes(x[0], x[1], 0, 0);
      assert [x[0], x[1]] == x;
    } else if |x| == 3 {
      SixesOfBytes(x[0], x[1], x[2], 0);
      assert [x[0], x[1], x[2]] == x;
    } else {
      SixesOfBytes(x[0], x[1], x[2], x[3]);
      PackInvertsUnpack(x[4..]);
      assert Unpack(x).value[3..] == Unpack(x[4..]).value;
      assert [x[0], x[1], x[2], x[3]] + x[4..] == x;
    }
  }

  /** Four groups for every three bytes, and one more than the bytes that remain. */
  lemma {:induction false} PackLength(data: seq<Byte>, k: nat)
    requires 3 * k <= |data| < 3 * k + 3
    ensures |Pack(data)| == 4 * k + if |data| == 3 * k then 0 else |data| - 3 * k + 1
  {
    if |data| >= 3 {
      PackLength(data[3..], k - 1);
    }
  }

  lemma {:induction false} PackConcat(a: seq<Byte>, b: seq<Byte>, k: nat)
    requires |a| == 3 * k
    ensures Pack(a + b) == Pack(a) + Pack(b)
  {
    if a == [] {
      assert a + b == b;
    } else {
      PackConcat(a[3..], b, k - 1);
      assert (a + b)[3..] == a[3..] + b;
      var four := Four(a[0], a[1], a[2]);
      assert Pack(a + b) == four + Pack(a[3..] + b) && Pack(a) == four + Pack(a[3..]);
      assert four + (Pack(a[3..]) + Pack(b)) == (four + Pack(a[3..])) + Pack(b);
    }
  }

  // Shifts and masks of 24 bits.

  function Combined(a: Byte, b: Byte, c: Byte): bv32 {
    ((a as bv32) << 16) | ((b as bv32) << 8) | (c as bv32)
  }

  /** Six bits at a time, most significant first. */
  function Shifted(combined: bv32): seq<Six> {
    [((combined >> 18) & 0x3f) as Six, ((combined >> 12) & 0x3f) as Six, ((combined >> 6) & 0x3f) as Six,
        (combined & 0x3f) as Six]
  }

  lemma {:induction false} ShiftsAreSixes(a: Byte, b: Byte, c: Byte)
    ensures Shifted(Combined(a, b, c)) == Four(a, b, c)
  {}
}

/** The alphabet and the padding on top of the groups. */
module Base64 {
  import opened Prelude
  import opened SixBitGroups

  /** Where a character stands in the standard alphabet. */
  function IndexOf(c: char): (r: Option<int>)
    ensures r.Some? ==> 0 <= r.value < 64
  {
    if 'A' <= c <= 'Z' then Some(c as int - 'A' as int)
    else if 'a' <= c <= 'z' then Some(c as int - 'a' as int + 26)
    else if '0' <= c <= '9' then Some(c as int - '0' as int + 52)
    else if c == '+' then Some(62)
    else if c == '/' then Some(63)
    else None
  }

  /** The 64 characters of the standard alphabet, in order. */
  function LetterAt(i: int): (c: char)
    requires 0 <= i < 64
    ensures IndexOf(c) == Some(i)
  {
    if i < 26 then ('A' as int + i) as char
    else if i < 52 then ('a' as int + i - 26) as char
    else if i < 62 then ('0' as int + i - 52) as char
    else if i == 62 then '+' else '/'
  }

  lemma {:induction false} LetterAtIndex(c: char)
    requires IndexOf(c).Some?
    ensures LetterAt(IndexOf(c).value) == c
  {}

  function Letter(i: Six): char {
    LetterAt(i as int)
  }

  function Sextet(c: char): Option<Six> {
    match IndexOf(c)
    case Some(i) => Some(i as Six)
    case None => None
  }

  lemma {:induction false} LetterOfSextet(c: char)
    requires Sextet(c).Some?
    ensures Letter(Sextet(c).value) == c
  {
    LetterAtIndex(c);
    IndexFitsSixBits(IndexOf(c).value);
  }

  lemma {:induction false} IndexFitsSixBits(i: int)
    requires 0 <= i < 64
    ensures (i as Six) as int == i
  {}

  function Letters(x: seq<Six>): (s: string)
    ensures |s| == |x| && forall i | 0 <= i < |s| :: s[i] == Letter(x[i])
  {
    seq(|x|, i requires 0 <= i < |x| => Letter(x[i]))
  }

  predicate AllLetters(s: string) {
    forall i | 0 <= i < |s| :: Sextet(s[i]).Some?
  }

  function Sextets(s: string): (x: seq<Six>)
    requires AllLetters(s)
    ensures |x| == |s| && forall i | 0 <= i < |x| :: Sextet(s[i]) == Some(x[i])
  {
    seq(|s|, i requires 0 <= i < |s| => Sextet(s[i]).value)
  }

  lemma {:induction false} SextetsInvertLetters(x: seq<Six>)
    ensures AllLetters(Letters(x)) && Sextets(Letters(x)) == x
  {}

  lemma {:induction false} LettersInvertSextets(s: string)
    requires AllLetters(s)
    ensures Letters(Sextets(s)) == s
  {
    forall i | 0 <= i < |s| ensures Letters(Sextets(s))[i] == s[i] {
      LetterOfSextet(s[i]);
    }
  }

  /** Padding to a multiple of four. */
  function Padding(n: nat): string {
    if n % 4 == 2 then "==" else if n % 4 == 3 then "=" else ""
  }

  lemma {:induction false} PaddingOf(k: nat, r: nat)
    requires r < 4
    ensures Padding(4 * k + r) == (if r == 2 then "==" else if r == 3 then "=" else "")
    ensures r != 1 ==> (4 * k + r + |Padding(4 * k + r)|) % 4 == 0
  {}

  function Encoding(data: seq<Byte>): string {
    Letters(Pack(data)) + Padding(|Pack(data)|)
  }

  /** A text without the padding a multiple of four may end in. */
  function Unpadded(s: string): string {
    if |s| >= 2 && s[|s| - 2..] == "==" then s[..|s| - 2]
    else if |s| >= 1 && s[|s| - 1] == '=' then s[..|s| - 1]
    else s
  }

  /** The strict decoder: a multiple of four characters, padding only at the end, no stray
      bits. */
  function Decode(s: string): Option<seq<Byte>> {
    if |s| % 4 == 0 && AllLetters(Unpadded(s)) then Unpack(Sextets(Unpadded(s))) else None
  }

  /** Text that does not end in padding is what is left of it with any padding. */
  lemma {:induction false} UnpaddedOf(s: string)
    requires s != "" ==> s[|s| - 1] != '='
    ensures Unpadded(s + "==") == s && Unpadded(s + "") == s
    ensures s != "" ==> Unpadded(s + "=") == s
  {
    assert (s + "==")[|s|..] == "==";
    assert s + "" == s;
    assert s != "" ==> (s + "=")[|s| - 1] == s[|s| - 1];
  }

  lemma {:induction false} LettersDoNotPad(s: string)
    requires AllLetters(s)
    ensures s != "" ==> s[|s| - 1] != '='
  {}

  lemma {:induction false} DecodePadded(s: string, k: nat, r: nat)
    requires AllLetters(s) && |s| == 4 * k + r && (r == 0 || r == 2 || r == 3)
    ensures Decode(s + Padding(|s|)) == Unpack(Sextets(s))
  {
    PaddingOf(k, r);
    LettersDoNotPad(s);
    UnpaddedOf(s);
  }

  /** A decoder gets every byte sequence back from its encoding. */
  lemma {:induction false} DecodeInvertsEncoding(data: seq<Byte>)
    ensures Decode(Encoding(data)) == Some(data)
  {
    var packed, k := Pack(data), |data| / 3;
    PackLength(data, k);
    SextetsInvertLetters(packed);
    DecodePadded(Letters(packed), k, |packed| - 4 * k);
    UnpackInvertsPack(data);
  }

  lemma {:induction false} UnpaddedSplits(s: string)
    ensures s == Unpadded(s) + "==" || s == Unpadded(s) + "=" || s == Unpadded(s)
  {}

  lemma {:induction false} PaddingFills(n: nat, k: nat)
    ensures n + 2 == 4 * k ==> Padding(n) == "=="
    ensures n + 1 == 4 * k ==> Padding(n) == "="
    ensures n == 4 * k ==> Padding(n) == ""
  {}

  /** The strings a strict decoder accepts are exactly the encodings. */
  lemma {:induction false} EncodingInvertsDecode(s: string)
    requires Decode(s).Some?
    ensures Encoding(Decode(s).value) == s
  {
    var t := Unpadded(s);
    PackInvertsUnpack(Sextets(t));
    LettersInvertSextets(t);
    UnpaddedSplits(s);
    PaddingFills(|t|, |s| / 4);
    assert t + "" == t;
  }

  predicate InAlphabet(c: char) {
    Sextet(c).Some? || c == '='
  }

  predicate AllInAlphabet(s: string) {
    forall i | 0 <= i < |s| :: InAlphabet(s[i])
  }

  lemma {:induction false} AlphabetConcat(a: string, b: string)
    requires AllLetters(a) && (b == "" || b == "=" || b == "==")
    ensures AllInAlphabet(a + b)
  {}

  /** The length is 4 * ceil(n / 3), and every character is in the alphabet or padding. */
  lemma {:induction false} EncodingShape(data: seq<Byte>)
    ensures |Encoding(data)| == (|data| + 2) / 3 * 4
    ensures AllInAlphabet(Encoding(data))
  {
    var k := |data| / 3;
    PackLength(data, k);
    PaddingOf(k, |Pack(data)| - 4 * k);
    SextetsInvertLetters(Pack(data));
    AlphabetConcat(Letters(Pack(data)), Padding(|Pack(data)|));
    assert (|data| + 2) / 3 == if |data| == 3 * k then k else k + 1;
  }

  /** What a last group of fewer than three bytes adds. */
  function LastGroup(last: seq<Byte>): string
    requires |last| < 3
  {
    if last == [] then ""
    else if |last| == 1 then Letters(Shifted(Combined(last[0], 0, 0))[..2]) + "=="
    else Letters(Shifted(Combined(last[0], last[1], 0))[..3]) + "="
  }

  lemma {:induction false} LettersConcat(x: seq<Six>, y: seq<Six>)
    ensures Letters(x + y) == Letters(x) + Letters(y)
  {}

  lemma {:induction false} ThreeMore(data: seq<Byte>, k: nat)
    requires 3 * k + 3 <= |data|
    ensures Letters(Pack(data[..3 * k + 3]))
         == Letters(Pack(data[..3 * k])) + Letters(Shifted(Combined(data[3 * k], data[3 * k + 1], data[3 * k + 2])))
  {
    var front, three := data[..3 * k], data[3 * k..3 * k + 3];
    PackConcat(front, three, k);
    assert front + three == data[..3 * k + 3];
    assert three[3..] == [];
    ShiftsAreSixes(three[0], three[1], three[2]);
    LettersConcat(Pack(front), Pack(three));
  }

  lemma {:induction false} EncodingEndsWithLastGroup(data: seq<Byte>, k: nat)
    requires 3 * k <= |data| < 3 * k + 3
    ensures Encoding(data) == Letters(Pack(data[..3 * k])) + LastGroup(data[3 * k..])
  {
    var front, last := data[..3 * k], data[3 * k..];
    assert front + last == data;
    PackConcat(front, last, k);
    PackLength(front, k);
    PackLength(data, k);
    PaddingOf(k, |Pack(last)|);
    LettersConcat(Pack(front), Pack(last));
    LastGroupLetters(last);
    assert (Letters(Pack(front)) + Letters(Pack(last))) + Padding(|Pack(data)|)
        == Letters(Pack(front)) + (Letters(Pack(last)) + Padding(|Pack(data)|));
  }

  lemma {:induction false} LastGroupLetters(last: seq<Byte>)
    requires |last| < 3
    ensures |Pack(last)| < 4
    ensures LastGroup(last) == Letters(Pack(last)) + if |last| == 1 then "==" else if |last| == 2 then "=" else ""
  {
    if |last| == 1 {
      ShiftsAreSixes(last[0], 0, 0);
      assert Shifted(Combined(last[0], 0, 0))[..2] == Pack(last);
    } else if |last| == 2 {
      ShiftsAreSixes(last[0], last[1], 0);
      assert Shifted(Combined(last[0], last[1], 0))[..3] == Pack(last);
    }
  }

  /** `encode_base64` */
  method EncodeBase64(data: seq<Byte>) returns (encoded: string)
    ensures encoded == Encoding(data)
    ensures Decode(encoded) == Some(data)
  {
    encoded := "";
    var index := 0;
    ghost var k := 0;
    assert data[..0] == [];
    while index + 3 <= |data|
      invariant 0 <= index == 3 * k <= |data|
      invariant encoded == Letters(Pack(data[..index]))
    {
      var quad := EncodeQuad(data[index], data[index + 1], data[index + 2]);
      ThreeMore(data, k);
      encoded := encoded + quad;
      index, k := index + 3, k + 1;
    }
    EncodingEndsWithLastGroup(data, k);
    var group := EncodeRemainder(data[index..]);
    encoded := encoded + group;
    DecodeInvertsEncoding(data);
  }

  method EncodeQuad(a: Byte, b: Byte, c: Byte) returns (quad: string)
    ensures quad == Letters(Shifted(Combined(a, b, c)))
  {
    var combined := Combined(a, b, c);
    quad := [Letter(((combined >> 18) & 0x3f) as Six)];
    quad := quad + [Letter(((combined >> 12) & 0x3f) as Six)];
    quad := quad + [Letter(((combined >> 6) & 0x3f) as Six)];
    quad := quad + [Letter((combined & 0x3f) as Six)];
    LettersOfFour(((combined >> 18) & 0x3f) as Six, ((combined >> 12) & 0x3f) as Six, ((combined >> 6) & 0x3f) as Six,
                  (combined & 0x3f) as Six);
  }

  lemma {:induction false} LettersOfFour(p: Six, q: Six, r: Six, t: Six)
    ensures Letters([p, q, r, t]) == [Letter(p)] + [Letter(q)] + [Letter(r)] + [Letter(t)]
  {}

  method EncodeRemainder(last: seq<Byte>) returns (group: string)
    requires |last| < 3
    ensures group == LastGroup(last)
  {
    group := "";
    if |last| == 1 {
      var combined := (last[0] as bv32) << 16;
      OneByteCombined(last[0], 0);
      group := [Letter(((combined >> 18) & 0x3f) as Six), Letter(((combined >> 12) & 0x3f) as Six)];
      assert group == Letters(Shifted(Combined(last[0], 0, 0))[..2]);
      group := group + "==";
    } else if |last| == 2 {
      var combined := ((last[0] as bv32) << 16) | ((last[1] as bv32) << 8);
      OneByteCombined(last[0], last[1]);
      group := [Letter(((combined >> 18) & 0x3f) as Six), Letter(((combined >> 12) & 0x3f) as Six),
                Letter(((combined >> 6) & 0x3f) as Six)];
      assert group == Letters(Shifted(Combined(last[0], last[1], 0))[..3]);
      group := group + "=";
    }
  }

  lemma {:induction false} OneByteCombined(a: Byte, b: Byte)
    ensures (a as bv32) << 16 == Combined(a, 0, 0)
    ensures ((a as bv32) << 16) | ((b as bv32) << 8) == Combined(a, b, 0)
  {}
}

/** Image strings and data URLs. */
module DataUrls {
  import opened Prelude
  import opened SixBitGroups
  import opened Base64

  /** Unicode White_Space. */
  predicate IsSpace(c: char) {
    var n := c as int;
    9 <= n <= 13 || n == 0x20 || n == 0x85 || n == 0xA0 || n == 0x1680 || 0x2000 <= n <= 0x200A
    || n == 0x2028 || n == 0x2029 || n == 0x202F || n == 0x205F || n == 0x3000
  }

  function TrimStart(s: string): string {
    if s != "" && IsSpace(s[0]) then TrimStart(s[1..]) else s
  }

  function TrimEnd(s: string): string {
    if s != "" && IsSpace(s[|s| - 1]) then TrimEnd(s[..|s| - 1]) else s
  }

  function Trim(s: string): string {
    TrimEnd(TrimStart(s))
  }

  predicate StartsAt(s: string, pattern: string, i: nat) {
    i + |pattern| <= |s| && s[i..i + |pattern|] == pattern
  }

  predicate Contains(s: string, pattern: string) {
    exists i: nat | i <= |s| :: StartsAt(s, pattern, i)
  }

  /** `split_once`: before and after the first occurrence. */
  function SplitOnce(s: string, pattern: string): (r: Option<(string, string)>)
    requires pattern != ""
    ensures r.Some? ==> s == r.value.0 + pattern + r.value.1
  {
    if StartsAt(s, pattern, 0) then
      SplitAtStart(s, pattern);
      Some(("", s[|pattern|..]))
    else if s == "" then None
    else
      match SplitOnce(s[1..], pattern)
      case None => None
      case Some((before, after)) =>
        SplitFurtherOn(s, before, pattern, after);
        Some(([s[0]] + before, after))
  }

  lemma {:induction false} SplitAtStart(s: string, pattern: string)
    requires StartsAt(s, pattern, 0)
    ensures s == "" + pattern + s[|pattern|..]
  {
    assert s == s[0..|pattern|] + s[|pattern|..];
  }

  lemma {:induction false} SplitFurtherOn(s: string, before: string, pattern: string, after: string)
    requires s != "" && s[1..] == before + pattern + after
    ensures s == ([s[0]] + before) + pattern + after
  {
    assert s == [s[0]] + s[1..];
  }

  function StripPrefix(s: string, prefix: string): Option<string> {
    if prefix <= s then Some(s[|prefix|..]) else None
  }

  /** A base64 image source. */
  datatype Payload = Payload(mediaType: string, data: string)

  const DATA: string := "data:"
  const BASE64: string := ";base64,"

  /** What follows `data:`. */
  function ParseUrl(url: string): Option<Payload> {
    match SplitOnce(url, BASE64)
    case None => None
    case Some((mediaType, payload)) =>
      if Trim(mediaType) == "" || Trim(payload) == "" then None else Some(Payload(Trim(mediaType), Trim(payload)))
  }

  /** `parse_image_string` */
  function ParseImageString(value: string, fallback: Option<string>): Option<Payload> {
    var trimmed := Trim(value);
    match StripPrefix(trimmed, DATA)
    case Some(url) => ParseUrl(url)
    case None =>
      match fallback
      case Some(mediaType) => if Trim(mediaType) != "" && trimmed != "" then Some(Payload(Trim(mediaType), trimmed))
          else None
      case None => None
  }

  function AsciiLower(s: string): string {
    seq(|s|, i requires 0 <= i < |s| => if 'A' <= s[i] <= 'Z' then (s[i] as int + 32) as char else s[i])
  }

  predicate Supported(mediaType: string) {
    mediaType == "image/jpeg" || mediaType == "image/png" || mediaType == "image/gif" || mediaType == "image/webp"
  }

  /** `split_whitespace().collect()` */
  function WithoutSpaces(s: string): string {
    if s == "" then "" else (if IsSpace(s[0]) then "" else [s[0]]) + WithoutSpaces(s[1..])
  }

  function ImagePartFromBase64(mediaType: string, data: string): Option<Payload> {
    var kind := AsciiLower(Trim(mediaType));
    if !Supported(kind) || WithoutSpaces(data) == "" then None else Some(Payload(kind, WithoutSpaces(data)))
  }

  function ImagePartFromBytes(data: seq<Byte>, mediaType: string): Option<Payload> {
    var kind := AsciiLower(Trim(mediaType));
    if !Supported(kind) then None else Some(Payload(kind, Encoding(data)))
  }

  /** `image_part_from_data_url` */
  function ImagePartFromDataUrl(url: string): Option<Payload> {
    var payload := Trim(url);
    if !(DATA <= payload) then None
    else
      match SplitOnce(payload, BASE64)
      case None => None
      case Some((header, encoded)) =>
        match StripPrefix(header, DATA)
        case None => None
        case Some(mediaType) => ImagePartFromBase64(mediaType, encoded)
  }

  function DataUrl(mediaType: string, encoded: string): string {
    DATA + mediaType + BASE64 + encoded
  }

  predicate Plain(s: string) {
    forall i | 0 <= i < |s| :: !IsSpace(s[i]) && s[i] != ';'
  }

  lemma {:induction false} EncodingIsPlain(data: seq<Byte>)
    ensures Plain(Encoding(data)) && (data != [] ==> Encoding(data) != "")
  {
    EncodingShape(data);
    forall i | 0 <= i < |Encoding(data)| ensures !IsSpace(Encoding(data)[i]) && Encoding(data)[i] != ';' {
      assert InAlphabet(Encoding(data)[i]);
    }
  }

  /** Text that neither starts nor ends with space is not trimmed. */
  lemma {:induction false} TrimNothing(s: string)
    requires s == "" || (!IsSpace(s[0]) && !IsSpace(s[|s| - 1]))
    ensures Trim(s) == s
  {}

  lemma {:induction false} PlainHasNoSpaces(s: string)
    requires Plain(s)
    ensures Trim(s) == s && WithoutSpaces(s) == s
  {
    TrimNothing(s);
    if s != "" {
      assert s == [s[0]] + s[1..];
      PlainHasNoSpaces(s[1..]);
    }
  }

  /** An occurrence cannot straddle a boundary that is followed by the pattern itself when
      the pattern's first character does not recur in it. */
  lemma {:induction false} SplitAtFirst(before: string, after: string)
    requires !Contains(before, BASE64)
    ensures SplitOnce(before + BASE64 + after, BASE64) == Some((before, after))
  {
    var s := before + BASE64 + after;
    if before == "" {
      assert s[0..8] == BASE64 && s[8..] == after;
    } else {
      assert s[1..] == before[1..] + BASE64 + after;
      if Contains(before[1..], BASE64) {
        var i: nat :| i <= |before[1..]| && StartsAt(before[1..], BASE64, i);
        assert before[i + 1..i + 1 + 8] == before[1..][i..i + 8];
        assert StartsAt(before, BASE64, i + 1);
      }
      SplitAtFirst(before[1..], after);
      NoStraddle(before, after);
      assert before == [before[0]] + before[1..];
    }
  }

  lemma {:induction false} NoStraddle(before: string, after: string)
    requires before != "" && !Contains(before, BASE64)
    ensures !StartsAt(before + BASE64 + after, BASE64, 0)
  {
    var s, n := before + BASE64 + after, |before|;
    if n >= 8 {
      assert s[0..8] == before[0..8];
      assert !StartsAt(before, BASE64, 0);
    } else {
      assert s[0..8][n] == ';';
    }
  }

  lemma {:induction false} UrlIsStripped(mediaType: string, encoded: string, fallback: Option<string>)
    requires Plain(encoded) && encoded != ""
    ensures ParseImageString(DataUrl(mediaType, encoded), fallback) == ParseUrl(mediaType + BASE64 + encoded)
  {
    UrlIsTrimmed(mediaType, encoded);
    assert DataUrl(mediaType, encoded)[5..] == mediaType + BASE64 + encoded;
  }

  lemma {:induction false} ParseUrlOf(mediaType: string, encoded: string)
    requires Trim(encoded) == encoded != "" && !Contains(mediaType, BASE64)
    ensures ParseUrl(mediaType + BASE64 + encoded) == if Trim(mediaType) == "" then None
        else Some(Payload(Trim(mediaType), encoded))
  {
    SplitAtFirst(mediaType, encoded);
  }

  /** What comes out of a data URL: the trimmed type and the exact encoding, precisely when
      the type is not blank and does not itself contain the separator. */
  lemma {:induction false} DataUrlParses(mediaType: string, data: seq<Byte>, fallback: Option<string>)
    requires data != []
    ensures ParseImageString(DataUrl(mediaType, Encoding(data)), fallback)
            == Some(Payload(Trim(mediaType), Encoding(data)))
            <==> Trim(mediaType) != "" && !Contains(mediaType, BASE64)
  {
    var encoded := Encoding(data);
    EncodingIsPlain(data);
    PlainHasNoSpaces(encoded);
    UrlIsStripped(mediaType, encoded, fallback);
    if Contains(mediaType, BASE64) {
      SplitInside(mediaType, encoded);
    } else {
      ParseUrlOf(mediaType, encoded);
    }
  }

  lemma {:induction false} UrlIsTrimmed(mediaType: string, encoded: string)
    requires Plain(encoded)
    ensures Trim(DataUrl(mediaType, encoded)) == DataUrl(mediaType, encoded)
    ensures DATA <= DataUrl(mediaType, encoded)
  {}

  lemma {:induction false} TrimKeepsInside(s: string, i: nat)
    requires i < |s| && !IsSpace(s[i])
    ensures s[i] in Trim(s)
  {
    TrimStartKeeps(s, i);
    var t := TrimStart(s);
    var j :| 0 <= j < |t| && t[j] == s[i];
    TrimEndKeeps(t, j);
  }

  lemma {:induction false} TrimStartKeeps(s: string, i: nat)
    requires i < |s| && !IsSpace(s[i])
    ensures s[i] in TrimStart(s)
  {
    if IsSpace(s[0]) {
      TrimStartKeeps(s[1..], i - 1);
    }
  }

  lemma {:induction false} TrimEndKeeps(s: string, i: nat)
    requires i < |s| && !IsSpace(s[i])
    ensures s[i] in TrimEnd(s)
  {
    if IsSpace(s[|s| - 1]) {
      TrimEndKeeps(s[..|s| - 1], i);
    }
  }

  /** The split of a text with an occurrence inside comes before the last separator, so a
      semicolon is left in the payload. */
  lemma {:induction false} SplitInside(mediaType: string, encoded: string)
    requires Contains(mediaType, BASE64) && Plain(encoded)
    ensures var r := SplitOnce(mediaType + BASE64 + encoded, BASE64); r.Some? && Trim(r.value.1) != encoded
  {
    var s := mediaType + BASE64 + encoded;
    var i: nat :| i <= |mediaType| && StartsAt(mediaType, BASE64, i);
    assert s[i..i + 8] == mediaType[i..i + 8];
    SplitNoLaterThan(s, i);
    var (before, after) := SplitOnce(s, BASE64).value;
    var k := |mediaType| - |before| - 8;
    assert after[k] == s[|mediaType|] == ';';
    TrimKeepsInside(after, k);
  }

  lemma {:induction false} SplitNoLaterThan(s: string, i: nat)
    requires StartsAt(s, BASE64, i)
    ensures SplitOnce(s, BASE64).Some? && |SplitOnce(s, BASE64).value.0| <= i
  {
    if !StartsAt(s, BASE64, 0) {
      assert s[1..][i - 1..i - 1 + 8] == s[i..i + 8];
      SplitNoLaterThan(s[1..], i - 1);
    }
  }

  /** The type a data URL is read with: up to the first separator. */
  function TypeRead(mediaType: string): string {
    match SplitOnce(mediaType, BASE64)
    case Some((before, _)) => before
    case None => mediaType
  }

  predicate SupportedType(mediaType: string) {
    Supported(AsciiLower(Trim(mediaType)))
  }

  lemma {:induction false} SplitsExactly(s: string)
    ensures SplitOnce(s, BASE64).Some? <==> Contains(s, BASE64)
  {
    if SplitOnce(s, BASE64).Some? {
      var n := |SplitOnce(s, BASE64).value.0|;
      assert s[n..n + 8] == BASE64;
      assert StartsAt(s, BASE64, n);
    } else if Contains(s, BASE64) {
      var i: nat :| i <= |s| && StartsAt(s, BASE64, i);
      SplitNoLaterThan(s, i);
    }
  }

  lemma {:induction false} StartOfLonger(s: string, more: string)
    requires |s| >= 8
    ensures StartsAt(s + more, BASE64, 0) <==> StartsAt(s, BASE64, 0)
    ensures (s + more)[1..] == s[1..] + more && (s + more)[8..] == s[8..] + more
  {
    assert (s + more)[0..8] == s[0..8];
  }

  /** More text behind the first separator changes nothing before it. */
  lemma {:induction false} SplitOfLonger(s: string, more: string)
    requires SplitOnce(s, BASE64).Some?
    ensures SplitOnce(s + more, BASE64) == Some((SplitOnce(s, BASE64).value.0, SplitOnce(s, BASE64).value.1 + more))
  {
    StartOfLonger(s, more);
    if !StartsAt(s, BASE64, 0) {
      SplitOfLonger(s[1..], more);
    }
  }

  /** A prefix without a semicolon stays in front of the first separator. */
  lemma {:induction false} SplitBehind(prefix: string, s: string)
    requires ';' !in prefix
    ensures SplitOnce(prefix + s, BASE64)
         == match SplitOnce(s, BASE64) case Some((before, after)) => Some((prefix + before, after)) case None => None
  {
    if prefix == "" {
      assert "" + s == s;
      if SplitOnce(s, BASE64).Some? {
        assert "" + SplitOnce(s, BASE64).value.0 == SplitOnce(s, BASE64).value.0;
      }
    } else {
      var all := prefix + s;
      SplitBehind(prefix[1..], s);
      assert all[1..] == prefix[1..] + s;
      assert |all| >= 8 ==> all[0..8][0] != BASE64[0];
      if SplitOnce(s, BASE64).Some? {
        assert [prefix[0]] + (prefix[1..] + SplitOnce(s, BASE64).value.0) == prefix + SplitOnce(s, BASE64).value.0;
      }
    }
  }

  /** What follows `data:` splits into the type up to the first separator and the rest. */
  lemma {:induction false} UrlSplits(mediaType: string, encoded: string) returns (payload: string)
    ensures SplitOnce(mediaType + BASE64 + encoded, BASE64) == Some((TypeRead(mediaType), payload))
    ensures if Contains(mediaType, BASE64) then ';' in payload
            else TypeRead(mediaType) == mediaType && payload == encoded
  {
    var more := BASE64 + encoded;
    SplitsExactly(mediaType);
    assert mediaType + BASE64 + encoded == mediaType + more;
    if Contains(mediaType, BASE64) {
      SplitOfLonger(mediaType, more);
      payload := SplitOnce(mediaType, BASE64).value.1 + more;
      assert more[0] == ';';
    } else {
      SplitAtFirst(mediaType, encoded);
      payload := encoded;
    }
  }

  lemma {:induction false} SplitUrlIsRead(url: string, kind: string, payload: string)
    requires Trim(url) == url && DATA <= url && SplitOnce(url, BASE64) == Some((DATA + kind, payload))
    ensures ImagePartFromDataUrl(url) == ImagePartFromBase64(kind, payload)
  {
    assert (DATA + kind)[|DATA|..] == kind;
  }

  lemma {:induction false} UrlIsRead(mediaType: string, encoded: string) returns (payload: string)
    requires Plain(encoded)
    ensures ImagePartFromDataUrl(DataUrl(mediaType, encoded)) == ImagePartFromBase64(TypeRead(mediaType), payload)
    ensures if Contains(mediaType, BASE64) then ';' in payload
            else TypeRead(mediaType) == mediaType && payload == encoded
  {
    payload := UrlSplits(mediaType, encoded);
    UrlIsTrimmed(mediaType, encoded);
    DataThenRest(mediaType, encoded);
    SplitBehind(DATA, mediaType + BASE64 + encoded);
    SplitUrlIsRead(DataUrl(mediaType, encoded), TypeRead(mediaType), payload);
  }

  lemma {:induction false} DataThenRest(mediaType: string, encoded: string)
    ensures DataUrl(mediaType, encoded) == DATA + (mediaType + BASE64 + encoded)
  {}

  lemma {:induction false} SemicolonStays(s: string)
    requires ';' in s
    ensures WithoutSpaces(s) != "" && !SupportedType(s)
  {
    var i :| 0 <= i < |s| && s[i] == ';';
    TrimKeepsInside(s, i);
    var t := Trim(s);
    var j :| 0 <= j < |t| && t[j] == ';';
    assert AsciiLower(t)[j] == ';';
    SomethingIsLeft(s, i);
  }

  lemma {:induction false} SomethingIsLeft(s: string, i: nat)
    requires i < |s| && !IsSpace(s[i])
    ensures WithoutSpaces(s) != ""
  {
    if i > 0 {
      SomethingIsLeft(s[1..], i - 1);
    }
  }

  lemma {:induction false} SeparatorIsUnsupported(mediaType: string)
    requires Contains(mediaType, BASE64)
    ensures !SupportedType(mediaType)
  {
    var i: nat :| i <= |mediaType| && StartsAt(mediaType, BASE64, i);
    assert mediaType[i] == mediaType[i..i + 8][0] == ';';
    SemicolonStays(mediaType);
  }

  /** A data URL and the bytes it encodes make the same image part exactly when the type the
      URL is read with is not supported, or there is data and the type holds no separator. */
  lemma {:induction false} DataUrlAgreesWithBytes(mediaType: string, data: seq<Byte>)
    ensures ImagePartFromDataUrl(DataUrl(mediaType, Encoding(data))) == ImagePartFromBytes(data, mediaType)
            <==> !SupportedType(TypeRead(mediaType)) || (data != [] && !Contains(mediaType, BASE64))
  {
    EncodingIsPlain(data);
    PlainHasNoSpaces(Encoding(data));
    var payload := UrlIsRead(mediaType, Encoding(data));
    if Contains(mediaType, BASE64) {
      SeparatorIsUnsupported(mediaType);
      SemicolonStays(payload);
    }
  }
}

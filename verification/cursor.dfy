/** Opaque keyset cursors: base64url (section 5 of RFC 4648) over `<created_at>|<id>`. */
module Cursor {
  import opened Model

  type Byte = n: nat | n < 256

  type Key = (int, nat)   // created_at, id

  // ---- base64url ----

  function Letter(v: nat): char
    requires v < 64
  {
    if v < 26 then ('A' as int + v) as char
    else if v < 52 then ('a' as int + (v - 26)) as char
    else if v < 62 then ('0' as int + (v - 52)) as char
    else if v == 62 then '-' else '_'
  }

  /** The decoder also takes the letters of the standard alphabet for 62 and 63. */
  function ValueOf(c: char): (v: Option<nat>)
    ensures v.Some? ==> v.value < 64
  {
    if 'A' <= c <= 'Z' then Some(c as int - 'A' as int)
    else if 'a' <= c <= 'z' then Some(c as int - 'a' as int + 26)
    else if '0' <= c <= '9' then Some(c as int - '0' as int + 52)
    else if c == '-' || c == '+' then Some(62)
    else if c == '_' || c == '/' then Some(63)
    else None
  }

  lemma LetterHasValue(v: nat)
    requires v < 64
    ensures ValueOf(Letter(v)) == Some(v) && Letter(v) != '='
  {}

  /** Three bytes make four letters; one or two remaining bytes are padded with '='. */
  function Encode64(bytes: seq<Byte>): string {
    if bytes == [] then ""
    else if |bytes| == 1 then
      [Letter(bytes[0] / 4), Letter(bytes[0] % 4 * 16), '=', '=']
    else if |bytes| == 2 then
      [Letter(bytes[0] / 4), Letter(bytes[0] % 4 * 16 + bytes[1] / 16), Letter(bytes[1] % 16 * 4), '=']
    else
      [Letter(bytes[0] / 4), Letter(bytes[0] % 4 * 16 + bytes[1] / 16),
       Letter(bytes[1] % 16 * 4 + bytes[2] / 64), Letter(bytes[2] % 64)] + Encode64(bytes[3..])
  }

  /** Where the lenient decoder stands: letters seen in this group of four, the bits left over from the
      last one, the padding signs seen since, and the bytes produced. */
  datatype Decoder = Decoder(quad: nat, left: nat, pads: nat, out: seq<Byte>)

  ghost predicate DecoderOk(d: Decoder) {
    && d.quad < 4
    && (d.quad == 0 ==> d.left == 0) && (d.quad == 1 ==> d.left < 64)
    && (d.quad == 2 ==> d.left < 16) && (d.quad == 3 ==> d.left < 4)
  }

  const START: Decoder := Decoder(0, 0, 0, [])

  function TakeLetter(d: Decoder, v: nat): (d': Decoder)
    requires DecoderOk(d) && v < 64
    ensures DecoderOk(d')
  {
    match d.quad
    case 0 => Decoder(1, v, 0, d.out)
    case 1 => Decoder(2, v % 16, 0, d.out + [d.left * 4 + v / 16])
    case 2 => Decoder(3, v % 4, 0, d.out + [d.left * 16 + v / 4])
    case _ => Decoder(0, 0, 0, d.out + [d.left * 64 + v])
  }

  /** Characters outside the alphabet are skipped; padding that completes a group ends the input; input
      that ends inside a group is an error. */
  function Decode64(text: string, d: Decoder): Option<seq<Byte>>
    requires DecoderOk(d)
    decreases |text|
  {
    if text == [] then (if d.quad == 0 then Some(d.out) else None)
    else if text[0] == '=' then
      if d.quad >= 2 && d.quad + d.pads + 1 >= 4 then Some(d.out)
      else Decode64(text[1..], if d.quad >= 2 then d.(pads := d.pads + 1) else d)
    else match ValueOf(text[0])
      case None => Decode64(text[1..], d)
      case Some(v) => Decode64(text[1..], TakeLetter(d, v))
  }

  lemma DecodeLetter(v: nat, rest: string, d: Decoder)
    requires DecoderOk(d) && v < 64
    ensures Decode64([Letter(v)] + rest, d) == Decode64(rest, TakeLetter(d, v))
  {
    LetterHasValue(v);
    assert ([Letter(v)] + rest)[1..] == rest;
  }

  lemma DecodeLetters(v: nat, w: nat, rest: string, d: Decoder)
    requires DecoderOk(d) && v < 64 && w < 64
    ensures Decode64([Letter(v), Letter(w)] + rest, d) == Decode64(rest, TakeLetter(TakeLetter(d, v), w))
  {
    DecodeLetter(v, [Letter(w)] + rest, d);
    DecodeLetter(w, rest, TakeLetter(d, v));
    assert [Letter(v), Letter(w)] + rest == [Letter(v)] + ([Letter(w)] + rest);
  }

  lemma DecodeGroup(a: Byte, b: Byte, e: Byte, rest: string, out: seq<Byte>)
    ensures Decode64([Letter(a / 4), Letter(a % 4 * 16 + b / 16), Letter(b % 16 * 4 + e / 64), Letter(e % 64)] + rest,
                     Decoder(0, 0, 0, out))
         == Decode64(rest, Decoder(0, 0, 0, out + [a, b, e]))
  {
    var w, x, y, z := a / 4, a % 4 * 16 + b / 16, b % 16 * 4 + e / 64, e % 64;
    var d := TakeLetter(TakeLetter(Decoder(0, 0, 0, out), w), x);
    DecodeLetters(w, x, [Letter(y), Letter(z)] + rest, Decoder(0, 0, 0, out));
    DecodeLetters(y, z, rest, d);
    assert [Letter(w), Letter(x), Letter(y), Letter(z)] + rest ==
        [Letter(w), Letter(x)] + ([Letter(y), Letter(z)] + rest);
    GroupDecoder(a, b, e, out);
  }

  lemma GroupDecoder(a: Byte, b: Byte, e: Byte, out: seq<Byte>)
    ensures TakeLetter(TakeLetter(TakeLetter(TakeLetter(Decoder(0, 0, 0, out), a / 4), a % 4 * 16 + b / 16),
                                  b % 16 * 4 + e / 64), e % 64)
         == Decoder(0, 0, 0, out + [a, b, e])
  {
    GroupBytes(a, b, e);
    assert out + [a] + [b] + [e] == out + [a, b, e];
  }

  lemma GroupBytes(a: Byte, b: Byte, e: Byte)
    ensures (a / 4) * 4 + (a % 4 * 16 + b / 16) / 16 == a
    ensures (a % 4 * 16 + b / 16) % 16 * 16 + (b % 16 * 4 + e / 64) / 4 == b
    ensures (b % 16 * 4 + e / 64) % 4 * 64 + e % 64 == e
  {}

  lemma PairDecoder(a: Byte, b: Byte, out: seq<Byte>)
    ensures TakeLetter(TakeLetter(TakeLetter(Decoder(0, 0, 0, out), a / 4), a % 4 * 16 + b / 16), b % 16 * 4)
         == Decoder(3, 0, 0, out + [a, b])
  {
    GroupBytes(a, b, 0);
    assert b % 16 * 4 % 4 == 0;
    assert out + [a] + [b] == out + [a, b];
  }

  lemma DecodePair(a: Byte, b: Byte, out: seq<Byte>)
    ensures Decode64(Encode64([a, b]), Decoder(0, 0, 0, out)) == Some(out + [a, b])
  {
    var w, x, y := a / 4, a % 4 * 16 + b / 16, b % 16 * 4;
    var d := TakeLetter(TakeLetter(Decoder(0, 0, 0, out), w), x);
    PairDecoder(a, b, out);
    DecodeLetters(w, x, [Letter(y), '='], Decoder(0, 0, 0, out));
    DecodeLetter(y, ['='], d);
    assert [Letter(w), Letter(x), Letter(y), '='] == [Letter(w), Letter(x)] + [Letter(y), '='];
    assert [Letter(y), '='] == [Letter(y)] + ['='];
  }

  lemma SingleDecoder(a: Byte, out: seq<Byte>)
    ensures TakeLetter(TakeLetter(Decoder(0, 0, 0, out), a / 4), a % 4 * 16) == Decoder(2, 0, 0, out + [a])
  {
    GroupBytes(a, 0, 0);
    assert a % 4 * 16 % 16 == 0;
  }

  lemma DecodeSingle(a: Byte, out: seq<Byte>)
    ensures Decode64(Encode64([a]), Decoder(0, 0, 0, out)) == Some(out + [a])
  {
    var w, x := a / 4, a % 4 * 16;
    SingleDecoder(a, out);
    DecodeLetters(w, x, ['=', '='], Decoder(0, 0, 0, out));
    assert [Letter(w), Letter(x), '=', '='] == [Letter(w), Letter(x)] + ['=', '='];
    assert ['=', '='][1..] == ['='];
    assert Decode64(['='], Decoder(2, 0, 1, out + [a])) == Some(out + [a]);
  }

  lemma DecodeShort(bytes: seq<Byte>, out: seq<Byte>)
    requires 0 < |bytes| < 3
    ensures Decode64(Encode64(bytes), Decoder(0, 0, 0, out)) == Some(out + bytes)
  {
    if |bytes| == 1 {
      assert bytes == [bytes[0]];
      DecodeSingle(bytes[0], out);
    } else {
      assert bytes == [bytes[0], bytes[1]];
      DecodePair(bytes[0], bytes[1], out);
    }
  }

  lemma {:induction false} Base64RoundTrip(bytes: seq<Byte>, out: seq<Byte>)
    ensures Decode64(Encode64(bytes), Decoder(0, 0, 0, out)) == Some(out + bytes)
  {
    if |bytes| == 0 {
      assert out + bytes == out;
    } else if |bytes| < 3 {
      DecodeShort(bytes, out);
    } else {
      var group := [bytes[0], bytes[1], bytes[2]];
      Base64RoundTrip(bytes[3..], out + group);
      assert out + group + bytes[3..] == out + bytes;
      DecodeGroup(bytes[0], bytes[1], bytes[2], Encode64(bytes[3..]), out);
    }
  }

  lemma ShortVectors()
    ensures Encode64([]) == "" && Encode64([102]) == "Zg==" && Encode64([102, 111]) == "Zm8="
    ensures Encode64([102, 111, 111]) == "Zm9v" && Encode64([251, 255, 191]) == "-_-_"
    ensures Encode64([98]) == "Yg==" && Encode64([98, 97]) == "YmE=" && Encode64([98, 97, 114]) == "YmFy"
  {
    assert [102, 111, 111][3..] == [] && [251, 255, 191][3..] == [] && [98, 97, 114][3..] == [];
  }

  lemma EncodeMore(a: Byte, b: Byte, e: Byte, rest: seq<Byte>)
    ensures Encode64([a, b, e] + rest) == Encode64([a, b, e]) + Encode64(rest)
  {
    assert ([a, b, e] + rest)[3..] == rest && [a, b, e][3..] == [];
  }

  /** The test vectors of section 10 of RFC 4648, and the two letters in which the URL alphabet differs. */
  lemma TestVectors()
    ensures Encode64([]) == "" && Encode64([102]) == "Zg==" && Encode64([102, 111]) == "Zm8="
    ensures Encode64([102, 111, 111]) == "Zm9v" && Encode64([102, 111, 111] + [98]) == "Zm9vYg=="
    ensures Encode64([102, 111, 111] + [98, 97]) == "Zm9vYmE="
    ensures Encode64([102, 111, 111] + [98, 97, 114]) == "Zm9vYmFy"
    ensures Encode64([251, 255, 191]) == "-_-_"
  {
    hide Encode64;
    ShortVectors();
    EncodeMore(102, 111, 111, [98]);
    EncodeMore(102, 111, 111, [98, 97]);
    EncodeMore(102, 111, 111, [98, 97, 114]);
  }

  // ---- text ----

  const SEPARATOR := '|'

  ghost predicate Plain(s: string) {
    forall i :: 0 <= i < |s| ==> s[i] < 128 as char && s[i] != SEPARATOR
  }

  ghost predicate Ascii(s: string) {
    forall i :: 0 <= i < |s| ==> s[i] < 128 as char
  }

  /** `.encode()`, for ASCII text. */
  function ToBytes(s: string): seq<Byte>
    requires Ascii(s)
  {
    seq(|s|, i requires 0 <= i < |s| => s[i] as int)
  }

  /** `.decode()`: bytes beyond ASCII are refused here. */
  function FromBytes(bytes: seq<Byte>): Option<string> {
    if forall i :: 0 <= i < |bytes| ==> bytes[i] < 128
    then Some(seq(|bytes|, i requires 0 <= i < |bytes| => bytes[i] as char))
    else None
  }

  lemma AsciiRoundTrip(s: string)
    requires Ascii(s)
    ensures FromBytes(ToBytes(s)) == Some(s)
  {
    assert forall i :: 0 <= i < |s| ==> ToBytes(s)[i] < 128;
    assert seq(|s|, i requires 0 <= i < |s| => ToBytes(s)[i] as char) == s;
  }

  /** `s.split("|")` */
  function Split(s: string): (parts: seq<string>)
    ensures |parts| >= 1
  {
    if s == [] then [[]]
    else
      var rest := Split(s[1..]);
      if s[0] == SEPARATOR then [[]] + rest
      else [[s[0]] + rest[0]] + rest[1..]
  }

  ghost predicate NoSeparator(s: string) {
    SEPARATOR !in s
  }

  lemma {:induction false} SplitWhole(s: string)
    requires NoSeparator(s)
    ensures Split(s) == [s]
  {
    if s != [] {
      SplitWhole(s[1..]);
      assert [s[0]] + s[1..] == s;
    }
  }

  lemma {:induction false} SplitPair(a: string, b: string)
    requires NoSeparator(a) && NoSeparator(b)
    ensures Split(a + [SEPARATOR] + b) == [a, b]
  {
    var s := a + [SEPARATOR] + b;
    if a == [] {
      assert s[1..] == b;
      SplitWhole(b);
    } else {
      SplitPair(a[1..], b);
      assert s[1..] == a[1..] + [SEPARATOR] + b;
      assert [a[0]] + a[1..] == a;
    }
  }

  lemma {:induction false} OnePartIsWhole(s: string)
    requires |Split(s)| == 1
    ensures Split(s) == [s] && NoSeparator(s)
  {
    if s != [] {
      OnePartIsWhole(s[1..]);
      assert [s[0]] + s[1..] == s;
    }
  }

  /** Two parts are the text on both sides of the one separator. */
  lemma {:induction false} TwoPartsArePair(s: string)
    requires |Split(s)| == 2
    ensures var parts := Split(s);
      NoSeparator(parts[0]) && NoSeparator(parts[1]) && s == parts[0] + [SEPARATOR] + parts[1]
  {
    var rest := Split(s[1..]);
    assert s == [s[0]] + s[1..];
    if s[0] == SEPARATOR {
      OnePartIsWhole(s[1..]);
    } else {
      TwoPartsArePair(s[1..]);
    }
  }

  // ---- cursors ----

  /** Printing and parsing of datetimes and UUIDs, which the standard library does. */
  datatype Formats = Formats(
    showTime: int -> string, readTime: string -> Option<int>, showId: nat -> string, readId: string -> Option<nat>)

  /** They are inverse to each other, on ASCII text without the separator. */
  ghost predicate Lawful(f: Formats) {
    && (forall t :: TimeOk(f, t))
    && (forall i: nat :: IdOk(f, i))
  }

  ghost predicate TimeOk(f: Formats, t: int) {
    Plain(f.showTime(t)) && f.readTime(f.showTime(t)) == Some(t)
  }

  ghost predicate IdOk(f: Formats, i: nat) {
    Plain(f.showId(i)) && f.readId(f.showId(i)) == Some(i)
  }

  function RawCursor(f: Formats, key: Key): string {
    f.showTime(key.0) + [SEPARATOR] + f.showId(key.1)
  }

  function EncodeCursor(f: Formats, key: Key): string
    requires Ascii(RawCursor(f, key))
  {
    Encode64(ToBytes(RawCursor(f, key)))
  }

  /** `None` where `decode_cursor` raises ValueError. */
  function DecodeCursor(f: Formats, cursor: string): Option<Key> {
    match Decode64(cursor, START)
    case None => None
    case Some(bytes) =>
      match FromBytes(bytes)
      case None => None
      case Some(raw) =>
        var parts := Split(raw);
        if |parts| != 2 then None
        else if f.readTime(parts[0]).Some? && f.readId(parts[1]).Some?
          then Some((f.readTime(parts[0]).value, f.readId(parts[1]).value))
        else None
  }

  lemma RawIsAscii(f: Formats, key: Key)
    requires Lawful(f)
    ensures Ascii(RawCursor(f, key))
  {
    var t, i := f.showTime(key.0), f.showId(key.1);
    assert TimeOk(f, key.0) && IdOk(f, key.1);
    var raw := RawCursor(f, key);
    forall k | 0 <= k < |raw| ensures raw[k] < 128 as char {
      if k > |t| {
        assert raw[k] == i[k - |t| - 1];
      }
    }
  }

  /** `decode_cursor(encode_cursor(t, id)) == (t, id)`; a cursor is never the empty string, and what
      it encodes is the two, printed, with the separator between them. */
  lemma CursorRoundTrip(f: Formats, key: Key)
    requires Lawful(f)
    ensures Ascii(RawCursor(f, key))
    ensures DecodeCursor(f, EncodeCursor(f, key)) == Some(key)
    ensures EncodeCursor(f, key) != ""
    ensures var bytes := Decode64(EncodeCursor(f, key), START);
      bytes.Some? && FromBytes(bytes.value) == Some(f.showTime(key.0) + "|" + f.showId(key.1))
  {
    RawIsAscii(f, key);
    var raw := RawCursor(f, key);
    DecodeText(raw);
    assert TimeOk(f, key.0) && IdOk(f, key.1);
    SplitPair(f.showTime(key.0), f.showId(key.1));
  }

  /** The text is a printed time and a printed id around the one separator. */
  ghost predicate Reads(f: Formats, raw: string, time: string, id: string, key: Key) {
    && NoSeparator(time) && NoSeparator(id) && raw == time + [SEPARATOR] + id
    && f.readTime(time) == Some(key.0) && f.readId(id) == Some(key.1)
  }

  /** A cursor is accepted exactly if it is base64 of text with exactly one separator, between something that
      parses as a time and something that parses as an id; and then it means these. */
  lemma DecodesExactly(f: Formats, cursor: string, key: Key)
    ensures DecodeCursor(f, cursor) == Some(key) <==>
      exists bytes, raw, time, id ::
        Decode64(cursor, START) == Some(bytes) && FromBytes(bytes) == Some(raw) && Reads(f, raw, time, id, key)
  {
    if DecodeCursor(f, cursor) == Some(key) {
      var raw := FromBytes(Decode64(cursor, START).value).value;
      TwoPartsArePair(raw);
      assert Reads(f, raw, Split(raw)[0], Split(raw)[1], key);
    }
    if bytes, raw, time, id :|
        Decode64(cursor, START) == Some(bytes) && FromBytes(bytes) == Some(raw) && Reads(f, raw, time, id, key) {
      SplitPair(time, id);
    }
  }

  /** Characters outside the alphabet do not matter, wherever they stand. */
  lemma {:induction false} ForeignIsSkipped(before: string, c: char, after: string, d: Decoder)
    requires DecoderOk(d) && ValueOf(c) == None && c != '='
    ensures Decode64(before + [c] + after, d) == Decode64(before + after, d)
    decreases |before|
  {
    var s, t := before + [c] + after, before + after;
    if before == [] {
      assert s[1..] == after && t == after;
    } else {
      assert s[1..] == before[1..] + [c] + after && t[1..] == before[1..] + after;
      if before[0] == '=' {
        ForeignIsSkipped(before[1..], c, after, if d.quad >= 2 then d.(pads := d.pads + 1) else d);
      } else if ValueOf(before[0]).Some? {
        ForeignIsSkipped(before[1..], c, after, TakeLetter(d, ValueOf(before[0]).value));
      } else {
        ForeignIsSkipped(before[1..], c, after, d);
      }
    }
  }

  lemma DecodeText(raw: string)
    requires Ascii(raw) && raw != []
    ensures var bytes := Decode64(Encode64(ToBytes(raw)), START); bytes.Some? && FromBytes(bytes.value) == Some(raw)
    ensures Encode64(ToBytes(raw)) != ""
  {
    var bytes := ToBytes(raw);
    Base64RoundTrip(bytes, []);
    assert [] + bytes == bytes;
    AsciiRoundTrip(raw);
    assert |bytes| > 0;
  }

  /** Malformed cursors are refused: the empty one and any text without a letter of the alphabet. */
  lemma {:induction false} NoLettersIsRefused(f: Formats, cursor: string)
    requires forall i :: 0 <= i < |cursor| ==> ValueOf(cursor[i]) == None
    ensures DecodeCursor(f, cursor) == None
  {
    NoLettersNoBytes(cursor);
    assert |FromBytes([]).value| == 0;
    assert Split([]) == [[]];
  }

  lemma {:induction false} NoLettersNoBytes(cursor: string)
    requires forall i :: 0 <= i < |cursor| ==> ValueOf(cursor[i]) == None
    ensures Decode64(cursor, START) == Some([])
  {
    if cursor != [] {
      NoLettersNoBytes(cursor[1..]);
    }
  }
}

/** The header of an HTTP response as the downloader reads it: where the body starts, and the length it
    announces. */
module HttpHeader {
  import opened Text

  const BLANK_LINE: seq<byte> := [13, 10, 13, 10]
  const LINE_END: seq<byte> := [13, 10]
  const SPACE: byte := 32
  /** "Content-Length:" */
  const CONTENT_LENGTH: seq<byte> := [67, 111, 110, 116, 101, 110, 116, 45, 76, 101, 110, 103, 116, 104, 58]

  /** The bytes before the first NUL, which is where the C library stops reading. */
  function Visible(s: seq<byte>): (r: seq<byte>)
    ensures r <= s && 0 !in r && (|r| < |s| ==> s[|r|] == 0)
  {
    if s == [] || s[0] == 0 then [] else [s[0]] + Visible(s[1..])
  }

  /** strstr: the position of the first occurrence, or the length of the C string if there is none. */
  function StrStr(s: seq<byte>, pat: seq<byte>): (k: nat)
    ensures k <= |Visible(s)|
    ensures k < |Visible(s)| ==> pat <= Visible(s)[k..]
    ensures forall j :: 0 <= j < k ==> !(pat <= Visible(s)[j..])
  {
    IndexFrom(Visible(s), pat, 0)
  }

  /** The first position at or after `from`, or the length if there is none. */
  function IndexFrom(s: seq<byte>, pat: seq<byte>, from: nat): (k: nat)
    requires from <= |s|
    ensures from <= k <= |s|
    ensures k < |s| ==> pat <= s[k..]
    ensures forall j :: from <= j < k ==> !(pat <= s[j..])
    decreases |s| - from
  {
    if from == |s| || pat <= s[from..] then from else IndexFrom(s, pat, from + 1)
  }

  /** http_hdr_len: the length up to and including the first blank line, or 0. */
  function HdrLen(s: seq<byte>): nat {
    var k := StrStr(s, BLANK_LINE);
    if k == |Visible(s)| then 0 else k + 4
  }

  function SkipSpaces(s: seq<byte>): (r: seq<byte>)
    ensures |r| <= |s|
  {
    if s != [] && s[0] == SPACE then SkipSpaces(s[1..]) else s
  }

  function Digits(s: seq<byte>, acc: nat): nat {
    if s == [] || s[0] < 48 || s[0] > 57 then acc
    else Digits(s[1..], 10 * acc + (s[0] - 48) as nat)
  }

  /** isspace. */
  predicate Blank(b: byte) { b == SPACE || 9 <= b <= 13 }

  function SkipBlanks(s: seq<byte>): (r: seq<byte>)
    ensures |r| <= |s|
  {
    if s != [] && Blank(s[0]) then SkipBlanks(s[1..]) else s
  }

  function SkipSign(s: seq<byte>): (r: seq<byte>)
    ensures |r| <= |s|
  {
    if s != [] && (s[0] == 45 || s[0] == 43) then s[1..] else s
  }

  /** atoi: blanks, a sign, digits. */
  function Atoi(s: seq<byte>): int {
    var t := SkipBlanks(s);
    var d := Digits(SkipSign(t), 0) as int;
    if t != [] && t[0] == 45 then 0 - d else d
  }

  predicate HasLength(s: seq<byte>) {
    var k := StrStr(s, CONTENT_LENGTH);
    k < |Visible(s)| &&
    var v := SkipSpaces(Visible(s)[k + |CONTENT_LENGTH|..]);
    IndexFrom(v, LINE_END, 0) < |v|
  }

  /** What stands between the field's name and the end of its line. */
  function LengthText(s: seq<byte>): seq<byte>
    requires HasLength(s)
  {
    var v := SkipSpaces(Visible(s)[StrStr(s, CONTENT_LENGTH) + |CONTENT_LENGTH|..]);
    v[..IndexFrom(v, LINE_END, 0)]
  }

  /** http_body_len: the value of the Content-Length field, or 0. */
  function BodyLen(s: seq<byte>): int {
    if HasLength(s) then Atoi(LengthText(s)) else 0
  }

  // How far atoi reads.

  function DigitCount(s: seq<byte>): (n: nat)
    ensures n <= |s|
  {
    if s == [] || s[0] < 48 || s[0] > 57 then 0 else 1 + DigitCount(s[1..])
  }

  /** The bytes atoi goes past before it stops. */
  function NumberLen(s: seq<byte>): (n: nat)
    ensures n <= |s|
  {
    var d := SkipSign(SkipBlanks(s));
    |s| - |d| + DigitCount(d)
  }

  lemma {:induction false} DigitsStop(s: seq<byte>, z: seq<byte>, acc: nat)
    requires z != [] ==> z[0] == 0
    ensures Digits(s + z, acc) == Digits(s, acc) && DigitCount(s + z) == DigitCount(s)
  {
    if s == [] {
      assert s + z == z;
    } else {
      assert (s + z)[0] == s[0] && (s + z)[1..] == s[1..] + z;
      if 48 <= s[0] <= 57 {
        DigitsStop(s[1..], z, 10 * acc + (s[0] - 48) as nat);
      }
    }
  }

  lemma {:induction false} BlanksStop(s: seq<byte>, z: seq<byte>)
    requires z != [] ==> z[0] == 0
    ensures SkipBlanks(s + z) == SkipBlanks(s) + z
  {
    if s == [] {
      assert s + z == z;
    } else {
      assert (s + z)[0] == s[0] && (s + z)[1..] == s[1..] + z;
      if Blank(s[0]) {
        BlanksStop(s[1..], z);
      }
    }
  }

  /** Zeros after a number change nothing. */
  lemma {:induction false} NumberStops(s: seq<byte>, z: seq<byte>)
    requires z != [] ==> z[0] == 0
    ensures Atoi(s + z) == Atoi(s) && NumberLen(s + z) == NumberLen(s)
  {
    hide SkipBlanks, Digits, DigitCount;
    BlanksStop(s, z);
    var t := SkipBlanks(s);
    SignStops(t, z);
    DigitsStop(SkipSign(t), z, 0);
  }

  lemma {:induction false} SignStops(t: seq<byte>, z: seq<byte>)
    requires z != [] ==> z[0] == 0
    ensures SkipSign(t + z) == SkipSign(t) + z
    ensures (t + z != [] && (t + z)[0] == 45) <==> (t != [] && t[0] == 45)
  {
    if t == [] {
      assert t + z == z;
    } else {
      assert (t + z)[1..] == t[1..] + z;
    }
  }

  const LENGTH_BUF: nat := 10

  /** http_body_len, which copies the text into ten zeroed bytes before atoi; `safe` says that neither
      the copy nor atoi leaves them. */
  method HttpBodyLen(s: seq<byte>) returns (safe: bool, len: int)
    ensures safe <==> HasLength(s) ==>
              |LengthText(s)| < LENGTH_BUF || (|LengthText(s)| == LENGTH_BUF && NumberLen(LengthText(s)) < LENGTH_BUF)
    ensures safe ==> len == BodyLen(s)
  {
    hide HasLength, LengthText, Atoi, NumberLen;
    if !HasLength(s) {
      return true, 0;
    }
    var text := LengthText(s);
    var buf := new byte[LENGTH_BUF](_ => 0);
    if |text| > buf.Length {
      return false, 0;
    }
    for i := 0 to |text|
      invariant buf[..i] == text[..i] && forall k :: i <= k < buf.Length ==> buf[k] == 0
    {
      buf[i] := text[i];
    }
    assert buf[..] == text + buf[|text|..];
    NumberStops(text, buf[|text|..]);
    return NumberLen(buf[..]) < buf.Length, Atoi(buf[..]);
  }

  lemma {:induction false} VisibleHeader(header: seq<byte>, body: seq<byte>)
    requires 0 !in header
    ensures Visible(header + body) == header + Visible(body)
  {
    var s := header + body;
    if header == [] {
      assert s == body;
    } else {
      assert s[0] == header[0] && s[1..] == header[1..] + body;
      VisibleHeader(header[1..], body);
    }
  }

  /** A header: NUL-free text that ends in the first blank line. */
  predicate IsHeader(header: seq<byte>, body: seq<byte>) {
    && |header| >= 4 && header[|header| - 4..] == BLANK_LINE && 0 !in header
    && forall j :: 0 <= j < |header| - 4 ==> !(BLANK_LINE <= (header + Visible(body))[j..])
  }

  /** It is measured exactly, so that what follows it is the body. */
  lemma HdrLenExact(header: seq<byte>, body: seq<byte>)
    requires IsHeader(header, body)
    ensures HdrLen(header + body) == |header|
    ensures (header + body)[HdrLen(header + body)..] == body
  {
    VisibleHeader(header, body);
    var v := header + Visible(body);
    var n := |header| - 4;
    assert v[n..][..4] == BLANK_LINE;
    var k := StrStr(header + body, BLANK_LINE);
    assert k == n;
  }

  /** Without a Content-Length field the announced length is 0, less than any first body byte. */
  lemma NoLengthField(header: seq<byte>, body: seq<byte>)
    requires IsHeader(header, body) && body != []
    requires forall j :: 0 <= j < |header + Visible(body)| ==> !(CONTENT_LENGTH <= (header + Visible(body))[j..])
    ensures BodyLen(header + body) == 0 < |header + body| - HdrLen(header + body)
  {
    HdrLenExact(header, body);
    VisibleHeader(header, body);
  }

  /** "HTTP/1.1 200 OK", a blank line and one byte of body. */
  const SHORT_RESPONSE: seq<byte> :=
    [72, 84, 84, 80, 47, 49, 46, 49, 32, 50, 48, 48, 32, 79, 75, 13, 10, 13, 10, 66]

  lemma ShortResponseOverruns()
    ensures BodyLen(SHORT_RESPONSE) == 0 < |SHORT_RESPONSE| - HdrLen(SHORT_RESPONSE)
  {
    var header, body := SHORT_RESPONSE[..19], SHORT_RESPONSE[19..];
    assert Visible(body) == body by {
      assert body[1..] == [];
    }
    forall j | 0 <= j < 15 ensures !(BLANK_LINE <= SHORT_RESPONSE[j..]) {
      assert SHORT_RESPONSE[j..][0] != 13;
    }
    forall j | 0 <= j < 20 ensures !(CONTENT_LENGTH <= SHORT_RESPONSE[j..]) {
      assert SHORT_RESPONSE[j..][0] != 67;
    }
    assert header + body == SHORT_RESPONSE;
    NoLengthField(header, body);
  }

  // ---------------------------------------------------------------- what the field says

  /** The byte of an ASCII character. */
  function Byte(c: char): byte
    requires c < 128 as char
  {
    (c as int) as byte
  }

  /** Decimal digits as bytes. */
  function Bytes(ds: string): (s: seq<byte>)
    requires forall i :: 0 <= i < |ds| ==> IsDigit(ds[i])
    ensures |s| == |ds|
  {
    seq(|ds|, i requires 0 <= i < |ds| => assert IsDigit(ds[i]); Byte(ds[i]))
  }

  lemma {:induction false} DigitByte(c: char)
    requires IsDigit(c)
    ensures 48 <= Byte(c) <= 57 && (Byte(c) - 48) as nat == (c - '0') as nat
  {
    var k := (c - '0') as nat;
    assert Byte(c) == 48 + k as byte by {
      assert c as int == 48 + k;
    }
    assert k == 0 || k == 1 || k == 2 || k == 3 || k == 4 || k == 5 || k == 6 || k == 7 || k == 8 || k == 9;
  }

  predicate StartsDigit(s: seq<byte>) { s != [] && 48 <= s[0] <= 57 }

  /** Digits add up to their decimal value, and end where something else stands. */
  lemma {:induction false} DigitsValue(ds: string, rest: seq<byte>)
    requires (forall i :: 0 <= i < |ds| ==> IsDigit(ds[i])) && !StartsDigit(rest)
    ensures Digits(Bytes(ds) + rest, 0) == Value(ds) && DigitCount(Bytes(ds) + rest) == |ds|
  {
    DigitsFrom("", ds, rest);
    assert "" + ds == ds;
  }

  lemma {:induction false} DigitsFrom(read: string, ds: string, rest: seq<byte>)
    requires (forall i :: 0 <= i < |read| ==> IsDigit(read[i])) && (forall i :: 0 <= i < |ds| ==> IsDigit(ds[i]))
    requires !StartsDigit(rest)
    ensures Digits(Bytes(ds) + rest, Value(read)) == Value(read + ds) && DigitCount(Bytes(ds) + rest) == |ds|
    decreases |ds|
  {
    var s := Bytes(ds) + rest;
    if ds == "" {
      assert s == rest && read + ds == read;
    } else {
      var more := read + [ds[0]];
      DigitByte(ds[0]);
      assert Value(more) == 10 * Value(read) + (ds[0] - '0') as nat by {
        assert more[..|more| - 1] == read && more[|more| - 1] == ds[0];
      }
      assert s[0] == Byte(ds[0]) && s[1..] == Bytes(ds[1..]) + rest;
      DigitsFrom(more, ds[1..], rest);
      assert more + ds[1..] == read + ds;
    }
  }

  /** A sign that may stand before a number. */
  predicate IsSign(sign: seq<byte>) { sign == [] || sign == [43] || sign == [45] }

  /** A field text: a sign, digits, and whatever follows them on the line. */
  predicate IsNumber(sign: seq<byte>, ds: string, rest: seq<byte>) {
    && IsSign(sign) && ds != "" && (forall i :: 0 <= i < |ds| ==> IsDigit(ds[i]))
    && 0 !in rest && 13 !in rest && !StartsDigit(rest)
  }

  /** atoi reads the decimal value of the digits up to the first byte that is none, and negates it after
      a minus sign. */
  lemma {:induction false} NumberRead(sign: seq<byte>, ds: string, rest: seq<byte>)
    requires IsNumber(sign, ds, rest)
    ensures Atoi(sign + Bytes(ds) + rest) == (if sign == [45] then 0 - Value(ds) else Value(ds))
    ensures NumberLen(sign + Bytes(ds) + rest) == |sign| + |ds|
  {
    var s, t := sign + Bytes(ds) + rest, Bytes(ds) + rest;
    DigitByte(ds[0]);
    assert s == sign + t && t[0] == Byte(ds[0]);
    DigitsValue(ds, rest);
    hide Digits, DigitCount, Bytes, Value;
    if sign == [] {
      assert s == t;
    } else {
      assert s[0] == sign[0] && s[1..] == t;
    }
  }

  lemma {:induction false} SpacesSkipped(k: nat, rest: seq<byte>)
    requires rest != [] && rest[0] != SPACE
    ensures SkipSpaces(seq(k, _ => SPACE) + rest) == rest
  {
    var s := seq(k, _ => SPACE) + rest;
    if k == 0 {
      assert s == rest;
    } else {
      assert s[1..] == seq(k - 1, _ => SPACE) + rest;
      SpacesSkipped(k - 1, rest);
    }
  }

  /** A response whose first Content-Length field says `text`, after k spaces. */
  function WithLength(before: seq<byte>, k: nat, text: seq<byte>, after: seq<byte>): seq<byte> {
    before + CONTENT_LENGTH + seq(k, _ => SPACE) + text + LINE_END + after
  }

  predicate FirstField(before: seq<byte>, s: seq<byte>) {
    |before| <= |s| && forall j :: 0 <= j < |before| ==> !(CONTENT_LENGTH <= s[j..])
  }

  lemma {:induction false} FieldFound(before: seq<byte>, rest: seq<byte>, s: seq<byte>)
    requires FirstField(before, s) && Visible(s) == before + CONTENT_LENGTH + rest
    ensures StrStr(s, CONTENT_LENGTH) == |before| < |Visible(s)|
    ensures Visible(s)[|before| + |CONTENT_LENGTH|..] == rest
  {
    hide Visible;
    var vis := Visible(s);
    assert vis[|before|..] == CONTENT_LENGTH + rest;
    forall j | 0 <= j < |before| ensures !(CONTENT_LENGTH <= vis[j..]) {
      assert vis[j..] <= s[j..];
    }
  }

  lemma {:induction false} FieldVisible(before: seq<byte>, name: seq<byte>, gap: seq<byte>, text: seq<byte>,
                                        end: seq<byte>, after: seq<byte>)
    requires 0 !in before && 0 !in name && 0 !in gap && 0 !in text && 0 !in end
    ensures Visible(before + name + gap + text + end + after) ==
            before + name + (gap + (text + end + Visible(after)))
  {
    VisibleHeader(before + name + gap + text + end, after);
    assert before + name + gap + text + end + Visible(after) ==
           before + name + (gap + (text + end + Visible(after)));
  }

  lemma {:induction false} NamesVisible()
    ensures 0 !in CONTENT_LENGTH && 0 !in LINE_END
  {
  }

  lemma {:induction false} FieldText(before: seq<byte>, k: nat, text: seq<byte>, after: seq<byte>)
    requires 0 !in before && 0 !in text && 13 !in text && text != [] && text[0] != SPACE
    requires FirstField(before, WithLength(before, k, text, after))
    ensures HasLength(WithLength(before, k, text, after))
    ensures LengthText(WithLength(before, k, text, after)) == text
  {
    hide Visible, StrStr, FirstField, SkipSpaces, IndexFrom;
    var s, line := WithLength(before, k, text, after), text + LINE_END + Visible(after);
    var gap := seq(k, _ => SPACE);
    NamesVisible();
    FieldVisible(before, CONTENT_LENGTH, gap, text, LINE_END, after);
    hide WithLength;
    FieldFound(before, gap + line, s);
    SpacesSkipped(k, line);
    LineEnd(text, Visible(after));
  }

  lemma {:induction false} LineEnd(text: seq<byte>, more: seq<byte>)
    requires 13 !in text
    ensures IndexFrom(text + LINE_END + more, LINE_END, 0) == |text|
    ensures (text + LINE_END + more)[..|text|] == text
  {
    var v := text + LINE_END + more;
    assert LINE_END <= v[|text|..] by {
      assert v[|text|..] == LINE_END + more;
    }
    forall j | 0 <= j < |text| ensures !(LINE_END <= v[j..]) {
      assert v[j..][0] == text[j];
    }
  }

  /** The announced length is the decimal number that follows the first "Content-Length:" and its
      spaces, up to the first byte that is no digit, and negative after a minus sign. */
  lemma {:induction false} LengthRead(before: seq<byte>, k: nat, sign: seq<byte>, ds: string, rest: seq<byte>,
                                      after: seq<byte>)
    requires 0 !in before && IsNumber(sign, ds, rest)
    requires FirstField(before, WithLength(before, k, sign + Bytes(ds) + rest, after))
    ensures var s := WithLength(before, k, sign + Bytes(ds) + rest, after);
            && BodyLen(s) == (if sign == [45] then 0 - Value(ds) else Value(ds))
            && HasLength(s) && LengthText(s) == sign + Bytes(ds) + rest
            && NumberLen(LengthText(s)) == |sign| + |ds|
  {
    var text := sign + Bytes(ds) + rest;
    NumberRead(sign, ds, rest);
    DigitBytes(ds);
    DigitByte(ds[0]);
    assert text[0] == if sign == [] then Byte(ds[0]) else sign[0];
    hide Bytes;
    FieldText(before, k, text, after);
    hide Atoi, HasLength, LengthText, WithLength, FirstField, NumberLen, Value;
  }

  lemma {:induction false} DigitBytes(ds: string)
    requires forall i :: 0 <= i < |ds| ==> IsDigit(ds[i])
    ensures 0 !in Bytes(ds) && 13 !in Bytes(ds)
  {
    forall i | 0 <= i < |ds| ensures Bytes(ds)[i] >= 48 {
      DigitByte(ds[i]);
    }
  }

  /** Every number printed in decimal is read back, whatever stands around the field. */
  lemma {:induction false} DecimalLength(before: seq<byte>, k: nat, n: nat, after: seq<byte>)
    requires 0 !in before && FirstField(before, WithLength(before, k, Bytes(Dec(n)), after))
    ensures BodyLen(WithLength(before, k, Bytes(Dec(n)), after)) == n
  {
    DecValue(n);
    hide Dec, Value;
    assert [] + Bytes(Dec(n)) + [] == Bytes(Dec(n));
    LengthRead(before, k, [], Dec(n), [], after);
  }

  /** Without a blank line the header is taken to be empty. */
  lemma {:induction false} NoBlankLine(s: seq<byte>)
    requires forall j :: 0 <= j < |Visible(s)| ==> !(BLANK_LINE <= Visible(s)[j..])
    ensures HdrLen(s) == 0
  {
  }
}

/**
 The header value of a download: an ASCII fallback in quotes and the percent-encoded UTF-8 bytes of
 the file name (RFC 6266, with the encoding of RFC 5987).  A name comes as its characters and its bytes.
 */
module ContentDisposition {
  import opened Prelude

  type Byte = i: int | 0 <= i < 256

  const FRONT: string := "attachment; filename=\""
  const MIDDLE: string := "\"; filename*=UTF-8''"

  predicate IsControl(c: char)
  {
    c < ' ' || c == '\U{007F}'
  }

  /** A character that may stand in the quoted fallback as it is. */
  predicate Quotable(c: char)
  {
    c < '\U{0080}' && !IsControl(c) && c != '"' && c != '\\'
  }

  function Masked(name: string): (r: string)
    ensures |r| == |name| && forall c | c in r :: Quotable(c)
  {
    if name == "" then "" else [if Quotable(name[0]) then name[0] else '_'] + Masked(name[1..])
  }

  /** Of the white space only the blank is left after masking. */
  predicate Blank(s: string)
  {
    forall c | c in s :: c == ' '
  }

  function Fallback(name: string): (r: string)
    ensures forall c | c in r :: Quotable(c)
    ensures !Blank(r)
  {
    if Blank(Masked(name)) then assert 'd' in "download"; "download" else Masked(name)
  }

  predicate Unreserved(b: Byte)
  {
    65 <= b <= 90 || 97 <= b <= 122 || 48 <= b <= 57 || b == 45 || b == 46 || b == 95 || b == 126
  }

  function HexDigit(n: int): (c: char)
    requires 0 <= n < 16
    ensures c in "0123456789ABCDEF"
  {
    "0123456789ABCDEF"[n]
  }

  function HexValue(c: char): (r: Option<int>)
    ensures r.Some? ==> 0 <= r.value < 16
  {
    if '0' <= c <= '9' then Some(c as int - 48) else if 'A' <= c <= 'F' then Some(c as int - 55) else None
  }

  function EncodeByte(b: Byte): string
  {
    if Unreserved(b) then [b as char] else ['%', HexDigit(b / 16), HexDigit(b % 16)]
  }

  function Encode(bytes: seq<Byte>): string
  {
    if bytes == [] then "" else EncodeByte(bytes[0]) + Encode(bytes[1..])
  }

  function Value(name: string, bytes: seq<Byte>): string
  {
    FRONT + Fallback(name) + MIDDLE + Encode(bytes)
  }

  /** `content_disposition_attachment` */
  method ContentDispositionAttachment(name: string, bytes: seq<Byte>) returns (value: string)
    ensures value == Value(name, bytes)
  {
    var enc, i := "", 0;
    assert bytes[0..] == bytes && "" + Encode(bytes) == Encode(bytes);
    while i < |bytes|
      invariant 0 <= i <= |bytes|
      invariant enc + Encode(bytes[i..]) == Encode(bytes)
    {
      var b := bytes[i];
      assert bytes[i..][1..] == bytes[i + 1..];
      var piece := EncodeByte(b);
      Assoc(enc, piece, Encode(bytes[i + 1..]));
      enc := enc + piece;
      i := i + 1;
    }
    assert bytes[i..] == [];
    value := FRONT + Fallback(name) + MIDDLE + enc;
  }

  // ---- Reading it back ----

  function Decode(s: string): Option<seq<Byte>>
    decreases |s|
  {
    if s == "" then Some([])
    else if s[0] == '%' then
      if |s| < 3 || HexValue(s[1]).None? || HexValue(s[2]).None? then None
      else
        var rest := Decode(s[3..]);
        if rest.None? then None else Some([HexValue(s[1]).value * 16 + HexValue(s[2]).value] + rest.value)
    else if s[0] as int >= 128 || !Unreserved(s[0] as int) then None
    else
      var rest := Decode(s[1..]);
      if rest.None? then None else Some([s[0] as int] + rest.value)
  }

  /** Up to the next quote. */
  function UpToQuote(s: string): (r: nat)
    ensures r <= |s|
  {
    if s == "" || s[0] == '"' then 0 else 1 + UpToQuote(s[1..])
  }

  /** What a browser reads: the quoted text and the decoded name. */
  function Read(value: string): Option<(string, seq<Byte>)>
  {
    if !(FRONT <= value) then None
    else
      var rest := value[|FRONT|..];
      var n := UpToQuote(rest);
      if !(MIDDLE <= rest[n..]) || Decode(rest[n..][|MIDDLE|..]).None? then None
      else Some((rest[..n], Decode(rest[n..][|MIDDLE|..]).value))
  }

  lemma DecodeOne(b: Byte, rest: string)
    ensures Decode(EncodeByte(b) + rest) == if Decode(rest).None? then None else Some([b] + Decode(rest).value)
  {
    var s := EncodeByte(b) + rest;
    if Unreserved(b) {
      assert s[0] == b as char && s[1..] == rest;
    } else {
      assert s[0] == '%' && s[3..] == rest;
      HexRoundTrip(b / 16);
      HexRoundTrip(b % 16);
    }
  }

  lemma HexRoundTrip(n: int)
    requires 0 <= n < 16
    ensures HexValue(HexDigit(n)) == Some(n)
  {
  }

  lemma {:induction false} DecodeEncode(bytes: seq<Byte>)
    ensures Decode(Encode(bytes)) == Some(bytes)
  {
    if bytes != [] {
      DecodeEncode(bytes[1..]);
      DecodeOne(bytes[0], Encode(bytes[1..]));
      assert [bytes[0]] + bytes[1..] == bytes;
    }
  }

  lemma {:induction false} UpToQuoteAfter(a: string, b: string)
    requires '"' !in a
    requires b != "" && b[0] == '"'
    ensures UpToQuote(a + b) == |a|
    decreases |a|
  {
    if a == "" {
      assert a + b == b;
    } else {
      assert (a + b)[1..] == a[1..] + b && (a + b)[0] == a[0];
      UpToQuoteAfter(a[1..], b);
    }
  }

  lemma ReadOf(ascii: string, enc: string)
    requires '"' !in ascii
    ensures Read(FRONT + ascii + MIDDLE + enc) == if Decode(enc).None? then None else Some((ascii, Decode(enc).value))
  {
    hide Decode, UpToQuote;
    var tail := MIDDLE + enc;
    Assoc(FRONT + ascii, MIDDLE, enc);
    Assoc(FRONT, ascii, tail);
    var value := FRONT + (ascii + tail);
    assert FRONT <= value && value[|FRONT|..] == ascii + tail;
    UpToQuoteAfter(ascii, tail);
    assert (ascii + tail)[|ascii|..] == tail && (ascii + tail)[..|ascii|] == ascii;
    assert MIDDLE <= tail && tail[|MIDDLE|..] == enc;
  }

  /** Whatever the name, the value is read back as the fallback and exactly the bytes of the name. */
  lemma NameRoundTrip(name: string, bytes: seq<Byte>)
    ensures Read(Value(name, bytes)) == Some((Fallback(name), bytes))
  {
    hide Read, Decode, Encode;
    assert !Quotable('"');
    hide Fallback;
    ReadOf(Fallback(name), Encode(bytes));
    DecodeEncode(bytes);
  }

  /** ASCII without control characters. */
  predicate Printable(s: string)
  {
    forall k | 0 <= k < |s| :: s[k] < '\U{0080}' && !IsControl(s[k])
  }

  lemma PrintableConcat(a: string, b: string)
    requires Printable(a) && Printable(b)
    ensures Printable(a + b)
  {
  }

  lemma {:induction false} EncodedIsPrintable(bytes: seq<Byte>)
    ensures Printable(Encode(bytes))
  {
    hide Printable;
    if bytes == [] {
      assert Printable("") by { NothingToPrint(); }
    } else {
      EncodedIsPrintable(bytes[1..]);
      OneIsPrintable(bytes[0]);
      PrintableConcat(EncodeByte(bytes[0]), Encode(bytes[1..]));
    }
  }

  lemma NothingToPrint()
    ensures Printable("") && Printable(FRONT) && Printable(MIDDLE)
  {
  }

  lemma OneIsPrintable(b: Byte)
    ensures Printable(EncodeByte(b))
  {
  }

  lemma QuotableIsPrintable(s: string)
    requires forall c | c in s :: Quotable(c)
    ensures Printable(s)
  {
    assert forall k | 0 <= k < |s| :: s[k] in s;
  }

  /** No character of the value can end the header line. */
  lemma ValueIsPrintable(name: string, bytes: seq<Byte>)
    ensures Printable(Value(name, bytes))
  {
    hide Printable, Encode;
    NothingToPrint();
    QuotableIsPrintable(Fallback(name));
    hide Fallback;
    EncodedIsPrintable(bytes);
    PrintableConcat(FRONT, Fallback(name));
    PrintableConcat(FRONT + Fallback(name), MIDDLE);
    PrintableConcat(FRONT + Fallback(name) + MIDDLE, Encode(bytes));
  }
}

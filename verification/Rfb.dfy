/**
 The RFB wire format of the VNC client (RFC 6143): big-endian integers, the version line, the
 pixel format, ServerInit, rectangle headers and the messages the client sends.  Every format comes
 with the function of the other side: what a server prints or a server parses.
 */
module Rfb {
  import opened Prelude

  type u8 = x: int | 0 <= x < 0x100
  type u16 = x: int | 0 <= x < 0x1_0000
  type u32 = x: int | 0 <= x < 0x1_0000_0000
  type i32 = x: int | -0x8000_0000 <= x < 0x8000_0000
  type bytes = seq<u8>

  // ---- Big-endian integers ----

  function Be16(n: u16): bytes
  {
    [n / 0x100, n % 0x100]
  }

  function FromBe16(b: bytes): u16
    requires |b| == 2
  {
    (b[0] as int) * 0x100 + b[1]
  }

  function Be32(n: u32): bytes
  {
    Be16(n / 0x1_0000) + Be16(n % 0x1_0000)
  }

  function FromBe32(b: bytes): u32
    requires |b| == 4
  {
    (FromBe16(b[..2]) as int) * 0x1_0000 + FromBe16(b[2..])
  }

  function Signed(n: u32): i32
  {
    if n < 0x8000_0000 then n else n - 0x1_0000_0000
  }

  function Unsigned(n: i32): u32
  {
    if n >= 0 then n else n + 0x1_0000_0000
  }

  lemma Be16RoundTrip(n: u16)
    ensures FromBe16(Be16(n)) == n
  {
  }

  lemma Be32RoundTrip(n: u32)
    ensures |Be32(n)| == 4 && FromBe32(Be32(n)) == n
  {
    assert Be32(n)[..2] == Be16(n / 0x1_0000);
    assert Be32(n)[2..] == Be16(n % 0x1_0000);
  }

  // ---- ProtocolVersion ----

  const ZERO: u8 := 48
  const DOT: u8 := 46
  const PLUS: u8 := 43
  const NEWLINE: u8 := 10
  const RFB: bytes := [82, 70, 66, 32]

  predicate IsDigit(b: u8)
  {
    ZERO <= b <= ZERO + 9
  }

  /** Rust's checked digit accumulation: any non-digit or a value above 255 is an error. */
  function ParseDigits(b: bytes, value: u8): Option<u8>
  {
    if b == [] then Some(value)
    else if !IsDigit(b[0]) then None
    else
      var next := value * 10 + (b[0] - ZERO);
      if next > 255 then None else ParseDigits(b[1..], next)
  }

  /** `u8::from_str`: one leading `+` is accepted, an empty number is not. */
  function ParseU8(b: bytes): Option<u8>
  {
    var digits := if b != [] && b[0] == PLUS then b[1..] else b;
    if digits == [] then None else ParseDigits(digits, 0)
  }

  /** Position of the first `.`, or the length when there is none. */
  function FirstDot(b: bytes): (i: nat)
    ensures i <= |b| && DOT !in b[..i] && (i < |b| ==> b[i] == DOT)
  {
    if b == [] || b[0] == DOT then 0 else 1 + FirstDot(b[1..])
  }

  function ParseProtocolVersion(buf: bytes): Option<(u8, u8)>
  {
    if |buf| != 12 || buf[..4] != RFB || buf[11] != NEWLINE then None
    else
      var s := buf[4..11];
      var dot := FirstDot(s);
      if dot == |s| then None
      else
        // A byte that is not ASCII is no digit, so the UTF-8 check refuses nothing more.
        match (ParseU8(s[..dot]), ParseU8(s[dot + 1..]))
        case (Some(major), Some(minor)) => Some((major, minor))
        case _ => None
  }

  function ThreeDigits(n: nat): bytes
    requires n < 1000
  {
    [ZERO + n / 100, ZERO + n / 10 % 10, ZERO + n % 10]
  }

  /** The version line with two three-digit numbers, as any server may print it. */
  function VersionLine(major: nat, minor: nat): bytes
    requires major < 1000 && minor < 1000
  {
    RFB + ThreeDigits(major) + [DOT] + ThreeDigits(minor) + [NEWLINE]
  }

  function EncodeProtocolVersion(major: u8, minor: u8): bytes
  {
    VersionLine(major, minor)
  }

  lemma ThreeDigitsParse(n: nat)
    requires n < 1000
    ensures DOT !in ThreeDigits(n) && PLUS !in ThreeDigits(n)
    ensures ParseU8(ThreeDigits(n)) == if n <= 255 then Some(n) else None
  {
    var d := ThreeDigits(n);
    var a, b, c := n / 100, n / 10 % 10, n % 10;
    assert n == 100 * a + 10 * b + c;
    assert ParseDigits(d, 0) == ParseDigits([ZERO + b, ZERO + c], a) by {
      assert d[1..] == [ZERO + b, ZERO + c];
    }
    assert ParseDigits([ZERO + b, ZERO + c], a)
        == if 10 * a + b > 255 then None else ParseDigits([ZERO + c], 10 * a + b) by {
      assert [ZERO + b, ZERO + c][1..] == [ZERO + c];
    }
    if 10 * a + b <= 255 {
      assert [ZERO + c][1..] == [];
      assert ParseDigits([ZERO + c], 10 * a + b) == if n > 255 then None else Some(n);
    }
    assert d[0] != PLUS && d != [];
  }

  lemma {:induction false} FirstDotIs(b: bytes, i: nat)
    requires i < |b| && DOT !in b[..i] && b[i] == DOT
    ensures FirstDot(b) == i
  {
    if i > 0 {
      assert b[..i][0] != DOT;
      assert b[1..][..i - 1] == b[..i][1..];
      FirstDotIs(b[1..], i - 1);
    }
  }

  /** A version line is understood exactly when both numbers fit in a byte. */
  lemma VersionLineParses(major: nat, minor: nat)
    requires major < 1000 && minor < 1000
    ensures ParseProtocolVersion(VersionLine(major, minor))
         == if major <= 255 && minor <= 255 then Some((major, minor)) else None
  {
    var line := VersionLine(major, minor);
    var s := line[4..11];
    assert line[..4] == RFB;
    assert s[..3] == ThreeDigits(major);
    assert s[4..] == ThreeDigits(minor);
    ThreeDigitsParse(major);
    ThreeDigitsParse(minor);
    FirstDotIs(s, 3);
  }

  // ---- PixelFormat and ServerInit ----

  datatype PixelFormat = PixelFormat(
    bitsPerPixel: u8, depth: u8, bigEndian: bool, trueColor: bool,
    redMax: u16, greenMax: u16, blueMax: u16, redShift: u8, greenShift: u8, blueShift: u8)

  /** The name is kept as the bytes received; decoding them to text is not modelled. */
  datatype ServerInit = ServerInit(width: u16, height: u16, format: PixelFormat, name: bytes)

  function ParsePixelFormat(b: bytes): Option<PixelFormat>
  {
    if |b| < 16 then None
    else Some(PixelFormat(b[0], b[1], b[2] != 0, b[3] != 0,
                          FromBe16(b[4..6]), FromBe16(b[6..8]), FromBe16(b[8..10]), b[10], b[11], b[12]))
  }

  function ParseServerInit(b: bytes): Option<ServerInit>
  {
    if |b| < 24 then None
    else
      match ParsePixelFormat(b[4..20])
      case None => None
      case Some(format) =>
        var length := FromBe32(b[20..24]);
        if |b| < 24 + length then None
        else Some(ServerInit(FromBe16(b[0..2]), FromBe16(b[2..4]), format, b[24..24 + length]))
  }

  /** A flag is any byte, true when it is not zero (section 7.4 of RFC 6143). */
  predicate IsFlag(b: u8, flag: bool)
  {
    flag <==> b != 0
  }

  /** The sixteen bytes of a pixel format, with the flag and padding bytes a server chooses. */
  function PrintPixelFormat(f: PixelFormat, bigEndian: u8, trueColor: u8, padding: bytes): bytes
  {
    [f.bitsPerPixel, f.depth, bigEndian, trueColor] + Be16(f.redMax) + Be16(f.greenMax) + Be16(f.blueMax)
    + [f.redShift, f.greenShift, f.blueShift] + padding
  }

  function PrintServerInit(si: ServerInit, bigEndian: u8, trueColor: u8, padding: bytes): bytes
    requires |si.name| < 0x1_0000_0000
  {
    Be16(si.width) + Be16(si.height) + PrintPixelFormat(si.format, bigEndian, trueColor, padding)
    + Be32(|si.name|) + si.name
  }

  lemma PixelFormatRoundTrip(f: PixelFormat, bigEndian: u8, trueColor: u8, padding: bytes)
    requires IsFlag(bigEndian, f.bigEndian) && IsFlag(trueColor, f.trueColor) && |padding| == 3
    ensures var b := PrintPixelFormat(f, bigEndian, trueColor, padding);
            |b| == 16 && ParsePixelFormat(b) == Some(f)
  {
    var b := PrintPixelFormat(f, bigEndian, trueColor, padding);
    assert b[4..6] == Be16(f.redMax);
    assert b[6..8] == Be16(f.greenMax);
    assert b[8..10] == Be16(f.blueMax);
    Be16RoundTrip(f.redMax);
    Be16RoundTrip(f.greenMax);
    Be16RoundTrip(f.blueMax);
  }

  lemma ServerInitRoundTrip(si: ServerInit, bigEndian: u8, trueColor: u8, padding: bytes)
    requires IsFlag(bigEndian, si.format.bigEndian) && IsFlag(trueColor, si.format.trueColor) && |padding| == 3
    requires |si.name| < 0x1_0000_0000
    ensures var b := PrintServerInit(si, bigEndian, trueColor, padding);
            |b| == 24 + |si.name| && FromBe32(b[20..24]) == |si.name| && ParseServerInit(b) == Some(si)
  {
    var b := PrintServerInit(si, bigEndian, trueColor, padding);
    PixelFormatRoundTrip(si.format, bigEndian, trueColor, padding);
    Be32RoundTrip(|si.name|);
    assert b[0..2] == Be16(si.width);
    assert b[2..4] == Be16(si.height);
    assert b[4..20] == PrintPixelFormat(si.format, bigEndian, trueColor, padding);
    assert b[20..24] == Be32(|si.name|);
    assert b[24..24 + |si.name|] == si.name;
  }

  // ---- Rectangle headers ----

  datatype RectHeader = RectHeader(x: u16, y: u16, width: u16, height: u16, encoding: i32)

  function ParseRectHeader(b: bytes): Option<RectHeader>
  {
    if |b| < 12 then None
    else Some(RectHeader(FromBe16(b[0..2]), FromBe16(b[2..4]), FromBe16(b[4..6]), FromBe16(b[6..8]),
                         Signed(FromBe32(b[8..12]))))
  }

  function PrintRectHeader(h: RectHeader): bytes
  {
    Be16(h.x) + Be16(h.y) + Be16(h.width) + Be16(h.height) + Be32(Unsigned(h.encoding))
  }

  lemma RectHeaderRoundTrip(h: RectHeader)
    ensures |PrintRectHeader(h)| == 12 && ParseRectHeader(PrintRectHeader(h)) == Some(h)
  {
    var b := PrintRectHeader(h);
    Be32RoundTrip(Unsigned(h.encoding));
    assert b[0..2] == Be16(h.x);
    assert b[2..4] == Be16(h.y);
    assert b[4..6] == Be16(h.width);
    assert b[6..8] == Be16(h.height);
    assert b[8..12] == Be32(Unsigned(h.encoding));
  }

  // ---- Messages the client sends ----

  datatype ClientMessage =
    | UpdateRequest(incremental: bool, x: u16, y: u16, w: u16, h: u16)
    | KeyEvent(down: bool, keysym: u32)
    | PointerEvent(buttons: u8, px: u16, py: u16)

  function Flag(b: bool): u8
  {
    if b then 1 else 0
  }

  function PrintClient(m: ClientMessage): bytes
  {
    match m
    case UpdateRequest(incremental, x, y, w, h) => [3, Flag(incremental)] + Be16(x) + Be16(y) + Be16(w) + Be16(h)
    case KeyEvent(down, keysym) => [4, Flag(down), 0, 0] + Be32(keysym)
    case PointerEvent(buttons, x, y) => [5, buttons] + Be16(x) + Be16(y)
  }

  method EncodeFbUpdateRequest(incremental: bool, x: u16, y: u16, w: u16, h: u16) returns (out: array<u8>)
    ensures fresh(out) && out[..] == PrintClient(UpdateRequest(incremental, x, y, w, h))
  {
    hide Be16;
    out := new u8[10](_ => 0);
    out[0] := 3;
    out[1] := Flag(incremental);
    CopyBe16(out, 2, x);
    CopyBe16(out, 4, y);
    CopyBe16(out, 6, w);
    CopyBe16(out, 8, h);
    InPieces(out[..], 2, 4, 6, 8);
    assert out[..2] == [3, Flag(incremental)];
    assert out[..][2..4] == out[2..4] && out[..][4..6] == out[4..6] && out[..][6..8] == out[6..8] && out[..][8..] == out[8..10];
  }

  method EncodeKeyEvent(down: bool, keysym: u32) returns (out: array<u8>)
    ensures fresh(out) && out[..] == PrintClient(KeyEvent(down, keysym))
  {
    out := new u8[8](_ => 0);
    out[0] := 4;
    out[1] := Flag(down);
    CopyBe16(out, 4, keysym / 0x1_0000);
    CopyBe16(out, 6, keysym % 0x1_0000);
    assert out[..] == out[..4] + out[4..6] + out[6..8];
    assert out[..4] == [4, Flag(down), 0, 0];
  }

  method EncodePointerEvent(buttons: u8, x: u16, y: u16) returns (out: array<u8>)
    ensures fresh(out) && out[..] == PrintClient(PointerEvent(buttons, x, y))
  {
    out := new u8[6](_ => 0);
    out[0] := 5;
    out[1] := buttons;
    CopyBe16(out, 2, x);
    CopyBe16(out, 4, y);
    assert out[..] == out[..2] + out[2..4] + out[4..6];
    assert out[..2] == [5, buttons];
  }

  lemma InPieces(b: bytes, i: nat, j: nat, k: nat, l: nat)
    requires i <= j <= k <= l <= |b|
    ensures b == b[..i] + b[i..j] + b[j..k] + b[k..l] + b[l..]
  {
  }

  method CopyBe16(out: array<u8>, at: nat, n: u16)
    requires at + 2 <= out.Length
    modifies out
    ensures out[at..at + 2] == Be16(n)
    ensures out[..at] == old(out[..at]) && out[at + 2..] == old(out[at + 2..])
    ensures forall i | 0 <= i < out.Length && !(at <= i < at + 2) :: out[i] == old(out[i])
  {
    out[at] := n / 0x100;
    out[at + 1] := n % 0x100;
  }

  /** The server's reader of the client's byte stream (section 7.5 of RFC 6143). */
  function ParseClient(b: bytes): Option<(ClientMessage, bytes)>
  {
    if b == [] then None
    else if b[0] == 3 && |b| >= 10 then
      Some((UpdateRequest(b[1] != 0, FromBe16(b[2..4]), FromBe16(b[4..6]), FromBe16(b[6..8]), FromBe16(b[8..10])), b[10..]))
    else if b[0] == 4 && |b| >= 8 then Some((KeyEvent(b[1] != 0, FromBe32(b[4..8])), b[8..]))
    else if b[0] == 5 && |b| >= 6 then Some((PointerEvent(b[1], FromBe16(b[2..4]), FromBe16(b[4..6])), b[6..]))
    else None
  }

  function PrintClients(ms: seq<ClientMessage>): bytes
  {
    if ms == [] then [] else PrintClient(ms[0]) + PrintClients(ms[1..])
  }

  /** All messages of a stream, until the bytes stop making one. */
  function ParseClients(b: bytes): (seq<ClientMessage>, bytes)
    decreases |b|
  {
    match ParseClient(b)
    case None => ([], b)
    case Some((m, rest)) => var (ms, left) := ParseClients(rest); ([m] + ms, left)
  }

  lemma ClientRoundTrip(m: ClientMessage, rest: bytes)
    ensures ParseClient(PrintClient(m) + rest) == Some((m, rest))
  {
    var p := PrintClient(m);
    var b := p + rest;
    assert b[|p|..] == rest;
    match m {
      case UpdateRequest(incremental, x, y, w, h) =>
        assert p[2..4] == Be16(x) && p[4..6] == Be16(y) && p[6..8] == Be16(w) && p[8..10] == Be16(h);
        assert b[2..4] == p[2..4] && b[4..6] == p[4..6] && b[6..8] == p[6..8] && b[8..10] == p[8..10];
      case KeyEvent(down, keysym) =>
        Be32RoundTrip(keysym);
        assert p[4..8] == Be32(keysym);
        assert b[4..8] == p[4..8];
      case PointerEvent(buttons, x, y) =>
        assert p[2..4] == Be16(x) && p[4..6] == Be16(y);
        assert b[2..4] == p[2..4] && b[4..6] == p[4..6];
    }
  }

  /** A server recovers any sequence of messages the client writes, with nothing left over. */
  lemma {:induction false} ClientStreamRoundTrip(ms: seq<ClientMessage>)
    ensures ParseClients(PrintClients(ms)) == (ms, [])
  {
    if ms != [] {
      ClientRoundTrip(ms[0], PrintClients(ms[1..]));
      ClientStreamRoundTrip(ms[1..]);
      assert ms == [ms[0]] + ms[1..];
    }
  }

  // ---- The password key ----

  function ReverseBits(b: bv8): bv8
  {
    (b >> 7) | ((b >> 5) & 2) | ((b >> 3) & 4) | ((b >> 1) & 8)
    | ((b << 1) & 16) | ((b << 3) & 32) | ((b << 5) & 64) | (b << 7)
  }

  /** Bit `i` of the result is bit `7 - i` of the argument. */
  lemma ReverseBitsMirrors(b: bv8, i: nat)
    requires i < 8
    ensures (ReverseBits(b) >> i) & 1 == (b >> (7 - i)) & 1
  {
    match i {
      case 0 => case 1 => case 2 => case 3 => case 4 => case 5 => case 6 => case _ =>
    }
  }

  lemma ReverseBitsTwice(b: bv8)
    ensures ReverseBits(ReverseBits(b)) == b
  {
  }

  /** Byte `i` of a password cut or NUL-padded to eight bytes. */
  function PasswordByte(password: seq<bv8>, i: nat): bv8
  {
    if i < |password| then password[i] else 0
  }

  function DesKey(password: seq<bv8>): seq<bv8>
  {
    seq(8, i requires 0 <= i => ReverseBits(PasswordByte(password, i)))
  }

  method VncDesKey(password: seq<bv8>) returns (key: array<bv8>)
    ensures fresh(key) && key[..] == DesKey(password)
  {
    key := new bv8[8](_ => 0);
    for i := 0 to 8
      invariant forall j | 0 <= j < i :: key[j] == ReverseBits(PasswordByte(password, j))
    {
      var byte := if i < |password| then password[i] else 0;
      key[i] := ReverseBits(byte);
    }
  }

  /** Two passwords give one key exactly when their first eight bytes, NUL-padded, agree. */
  lemma DesKeyDeterminedByEightBytes(p: seq<bv8>, q: seq<bv8>)
    ensures DesKey(p) == DesKey(q) <==> forall i: nat | i < 8 :: PasswordByte(p, i) == PasswordByte(q, i)
  {
    if DesKey(p) == DesKey(q) {
      forall i: nat | i < 8
        ensures PasswordByte(p, i) == PasswordByte(q, i)
      {
        assert DesKey(p)[i] == DesKey(q)[i];
        ReverseBitsTwice(PasswordByte(p, i));
        ReverseBitsTwice(PasswordByte(q, i));
      }
    }
  }
}

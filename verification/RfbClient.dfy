/**
 The live part of the VNC client: the handshake and the loop that pumps server messages.  Both read
 a byte stream step by step; their specifications are functions of the bytes not yet read, and the
 theorems relate them to a server that prints its side of RFC 6143.
 */
module RfbClient {
  import opened Prelude
  import opened Rfb

  // ---- Streams ----

  /** The bytes a peer sends before it closes the connection. */
  class Inbound {
    const data: bytes
    var pos: nat

    ghost predicate Valid()
      reads this
    {
      pos <= |data|
    }

    ghost function Rest(): bytes
      reads this
      requires Valid()
    {
      data[pos..]
    }

    constructor (data: bytes)
      ensures Valid() && Rest() == data
    {
      this.data := data;
      this.pos := 0;
    }

    /** `read_exact`: all `n` bytes, or an error once the peer has closed. */
    method ReadExact(n: nat) returns (r: Option<bytes>)
      requires Valid()
      modifies this
      ensures Valid()
      ensures if n <= |old(Rest())| then r == Some(old(Rest())[..n]) && Rest() == old(Rest())[n..]
              else r == None && Rest() == []
    {
      assert n <= |data| - pos ==> data[pos..][..n] == data[pos..pos + n] && data[pos..][n..] == data[pos + n..];
      if n <= |data| - pos {
        r := Some(data[pos..pos + n]);
        pos := pos + n;
      } else {
        r := None;
        pos := |data|;
      }
    }
  }

  class Outbound {
    var written: bytes

    constructor ()
      ensures written == []
    {
      written := [];
    }

    method WriteAll(b: bytes)
      modifies this
      ensures written == old(written) + b
    {
      written := written + b;
    }
  }

  // ---- Events shown to the frontend ----

  datatype Event =
    | Raw(x: u16, y: u16, w: u16, h: u16, pixels: bytes)
    | Copy(x: u16, y: u16, w: u16, h: u16, srcX: u16, srcY: u16)
    | Resize(w: u16, h: u16)

  class Sink {
    var events: seq<Event>

    method Emit(e: Event)
      modifies this
      ensures events == old(events) + [e]
    {
      events := events + [e];
    }
  }

  // ---- The message pump as a function of the unread bytes ----

  datatype Error = Io | UnsupportedEncoding(encoding: i32) | UnknownMessage(tag: u8)

  /** One reading step: events emitted, then the bytes left or the error that ends the pump. */
  datatype Step = Go(events: seq<Event>, rest: bytes) | Halt(events: seq<Event>, error: Error)

  function After(earlier: seq<Event>, s: Step): Step
  {
    match s
    case Go(events, rest) => Go(earlier + events, rest)
    case Halt(events, error) => Halt(earlier + events, error)
  }

  /** Bytes of a raw rectangle at four bytes a pixel. */
  function PixelBytes(w: u16, h: u16): nat
  {
    (w as int) * h * 4
  }

  function ReadRect(s: bytes): Step
  {
    if |s| < 12 then Halt([], Io)
    else
      var r, body := ParseRectHeader(s[..12]).value, s[12..];
      if r.encoding == 0 then
        var size := PixelBytes(r.width, r.height);
        if |body| < size then Halt([], Io)
        else Go([Raw(r.x, r.y, r.width, r.height, body[..size])], body[size..])
      else if r.encoding == 1 then
        if |body| < 4 then Halt([], Io)
        else Go([Copy(r.x, r.y, r.width, r.height, FromBe16(body[0..2]), FromBe16(body[2..4]))], body[4..])
      else if r.encoding == -223 then Go([Resize(r.width, r.height)], body)
      else Halt([], UnsupportedEncoding(r.encoding))
  }

  function ReadRects(s: bytes, n: nat): Step
    decreases n
  {
    hide ReadRect;
    if n == 0 then Go([], s)
    else
      match ReadRect(s)
      case Halt(events, error) => Halt(events, error)
      case Go(events, rest) => After(events, ReadRects(rest, n - 1))
  }

  function Skip(s: bytes, n: nat): Step
  {
    if |s| < n then Halt([], Io) else Go([], s[n..])
  }

  function ReadMessage(s: bytes): Step
  {
    if |s| < 1 then Halt([], Io)
    else if s[0] == 0 then
      if |s| < 4 then Halt([], Io) else ReadRects(s[4..], FromBe16(s[2..4]))
    else if s[0] == 1 then
      if |s| < 6 then Halt([], Io) else Skip(s[6..], (FromBe16(s[4..6]) as int) * 6)
    else if s[0] == 2 then Go([], s[1..])
    else if s[0] == 3 then
      if |s| < 8 then Halt([], Io) else Skip(s[8..], FromBe32(s[4..8]))
    else Halt([], UnknownMessage(s[0]))
  }

  lemma ReadRectShrinks(s: bytes)
    ensures ReadRect(s).Go? ==> |ReadRect(s).rest| < |s|
  {
    hide PixelBytes, FromBe16, FromBe32;
  }

  lemma {:induction false} ReadRectsShrinks(s: bytes, n: nat)
    ensures ReadRects(s, n).Go? ==> |ReadRects(s, n).rest| <= |s|
    decreases n
  {
    hide ReadRect;
    ReadRectShrinks(s);
    if n > 0 && ReadRect(s).Go? {
      ReadRectsShrinks(ReadRect(s).rest, n - 1);
    }
  }

  lemma ReadMessageShrinks(s: bytes)
    ensures ReadMessage(s).Go? ==> |ReadMessage(s).rest| < |s|
  {
    hide FromBe16, FromBe32, ReadRects;
    if |s| >= 4 && s[0] == 0 {
      ReadRectsShrinks(s[4..], FromBe16(s[2..4]));
    }
  }

  datatype Pumped = Pumped(events: seq<Event>, error: Error)

  /** Everything the pump emits for the unread bytes `s`, and the error it stops with. */
  function Pump(s: bytes): Pumped
    decreases |s|
  {
    hide ReadMessage;
    ReadMessageShrinks(s);
    match ReadMessage(s)
    case Halt(events, error) => Pumped(events, error)
    case Go(events, rest) => var p := Pump(rest); Pumped(events + p.events, p.error)
  }

  // ---- The pump ----

  method ReadU16(rd: Inbound) returns (r: Option<u16>)
    requires rd.Valid()
    modifies rd
    ensures rd.Valid()
    ensures if 2 <= |old(rd.Rest())| then r == Some(FromBe16(old(rd.Rest())[..2])) && rd.Rest() == old(rd.Rest())[2..]
            else r == None && rd.Rest() == []
  {
    var b := rd.ReadExact(2);
    r := if b.Some? then Some(FromBe16(b.value)) else None;
  }

  method PumpRect(rd: Inbound, sink: Sink) returns (error: Option<Error>)
    requires rd.Valid()
    modifies rd, sink
    ensures rd.Valid()
    ensures match ReadRect(old(rd.Rest()))
            case Go(events, rest) => error == None && sink.events == old(sink.events) + events && rd.Rest() == rest
            case Halt(events, e) => error == Some(e) && sink.events == old(sink.events) + events
  {
    hide PixelBytes, FromBe16, FromBe32, Signed;
    var header := rd.ReadExact(12);
    if header == None { return Some(Io); }
    var r := ParseRectHeader(header.value).value;
    if r.encoding == 0 {
      var pixels := rd.ReadExact(PixelBytes(r.width, r.height));
      if pixels == None { return Some(Io); }
      sink.Emit(Raw(r.x, r.y, r.width, r.height, pixels.value));
    } else if r.encoding == 1 {
      ghost var body := rd.Rest();
      var sx := ReadU16(rd);
      if sx == None { return Some(Io); }
      var sy := ReadU16(rd);
      if sy == None { return Some(Io); }
      assert body[2..][..2] == body[2..4];
      sink.Emit(Copy(r.x, r.y, r.width, r.height, sx.value, sy.value));
    } else if r.encoding == -223 {
      sink.Emit(Resize(r.width, r.height));
    } else {
      return Some(UnsupportedEncoding(r.encoding));
    }
    return None;
  }

  method PumpRects(rd: Inbound, sink: Sink, num: nat) returns (error: Option<Error>)
    requires rd.Valid()
    modifies rd, sink
    ensures rd.Valid()
    ensures match ReadRects(old(rd.Rest()), num)
            case Go(events, rest) => error == None && sink.events == old(sink.events) + events && rd.Rest() == rest
            case Halt(events, e) => error == Some(e) && sink.events == old(sink.events) + events
  {
    hide ReadRect, ReadRects, After;
    ghost var emitted := [];
    AfterNothing(ReadRects(rd.Rest(), num));
    for i := 0 to num
      invariant rd.Valid() && sink.events == old(sink.events) + emitted
      invariant ReadRects(old(rd.Rest()), num) == After(emitted, ReadRects(rd.Rest(), num - i))
    {
      ghost var step := ReadRect(rd.Rest());
      RectsUnfold(rd.Rest(), num - i, emitted);
      var failed := PumpRect(rd, sink);
      Assoc(old(sink.events), emitted, step.events);
      emitted := emitted + step.events;
      if failed.Some? { return failed; }
    }
    RectsEnd(rd.Rest(), emitted);
    return None;
  }

  lemma AfterNothing(s: Step)
    ensures After([], s) == s
  {
  }

  lemma RectsEnd(s: bytes, earlier: seq<Event>)
    ensures After(earlier, ReadRects(s, 0)) == Go(earlier, s)
  {
  }

  lemma RectsUnfold(s: bytes, n: nat, earlier: seq<Event>)
    requires n > 0
    ensures After(earlier, ReadRects(s, n)) ==
            match ReadRect(s)
            case Halt(events, error) => Halt(earlier + events, error)
            case Go(events, rest) => After(earlier + events, ReadRects(rest, n - 1))
  {
    hide ReadRect;
    match ReadRect(s) {
      case Halt(events, error) =>
      case Go(events, rest) => Assoc(earlier, events, ReadRects(rest, n - 1).events);
    }
  }

  method PumpMessage(rd: Inbound, sink: Sink) returns (error: Option<Error>)
    requires rd.Valid()
    modifies rd, sink
    ensures rd.Valid()
    ensures match ReadMessage(old(rd.Rest()))
            case Go(events, rest) => error == None && sink.events == old(sink.events) + events && rd.Rest() == rest
            case Halt(events, e) => error == Some(e) && sink.events == old(sink.events) + events
  {
    hide FromBe16, FromBe32, ReadRects;
    ghost var s := rd.Rest();
    var tag := rd.ReadExact(1);
    if tag == None { return Some(Io); }
    var msgType := tag.value[0];
    if msgType == 0 {
      var pad := rd.ReadExact(1);
      if pad == None { return Some(Io); }
      var num := ReadU16(rd);
      if num == None { return Some(Io); }
      assert s[1..][1..][..2] == s[2..4] && s[1..][1..][2..] == s[4..];
      error := PumpRects(rd, sink, num.value);
    } else if msgType == 1 {
      var pad := rd.ReadExact(1);
      if pad == None { return Some(Io); }
      var first := ReadU16(rd);
      if first == None { return Some(Io); }
      var n := ReadU16(rd);
      if n == None { return Some(Io); }
      assert s[1..][1..][2..][..2] == s[4..6] && s[1..][1..][2..][2..] == s[6..];
      var skip := rd.ReadExact((n.value as int) * 6);
      error := if skip == None then Some(Io) else None;
    } else if msgType == 2 {
      error := None;
    } else if msgType == 3 {
      var pad := rd.ReadExact(3);
      if pad == None { return Some(Io); }
      var n := rd.ReadExact(4);
      if n == None { return Some(Io); }
      assert s[1..][3..][..4] == s[4..8] && s[1..][3..][4..] == s[8..];
      var skip := rd.ReadExact(FromBe32(n.value));
      error := if skip == None then Some(Io) else None;
    } else {
      error := Some(UnknownMessage(msgType));
    }
  }

  /** The reader task: it runs until the stream ends or something unknown arrives. */
  method PumpMessages(rd: Inbound, sink: Sink) returns (error: Error)
    requires rd.Valid()
    modifies rd, sink
    ensures rd.Valid()
    ensures sink.events == old(sink.events) + Pump(old(rd.Rest())).events
    ensures error == Pump(old(rd.Rest())).error
  {
    hide ReadMessage;
    ghost var emitted := [];
    while true
      invariant rd.Valid() && sink.events == old(sink.events) + emitted
      invariant Pump(old(rd.Rest())).events == emitted + Pump(rd.Rest()).events
      invariant Pump(old(rd.Rest())).error == Pump(rd.Rest()).error
      decreases |rd.Rest()|
    {
      ghost var step := ReadMessage(rd.Rest());
      ReadMessageShrinks(rd.Rest());
      var failed := PumpMessage(rd, sink);
      if failed.Some? { return failed.value; }
      emitted := emitted + step.events;
    }
    return Io;
  }

  // ---- What a server prints ----

  datatype ServerRect =
    | RawRect(x: u16, y: u16, w: u16, h: u16, pixels: bytes)
    | CopyRect(x: u16, y: u16, w: u16, h: u16, srcX: u16, srcY: u16)
    | DesktopSize(x: u16, y: u16, w: u16, h: u16)

  datatype ServerMessage =
    | Update(padding: u8, rects: seq<ServerRect>)
    | ColourMap(padding: u8, first: u16, entries: u16, colours: bytes)
    | Bell
    | CutText(pads: bytes, text: bytes)

  predicate RectFits(r: ServerRect)
  {
    r.RawRect? ==> |r.pixels| == PixelBytes(r.w, r.h)
  }

  predicate MessageFits(m: ServerMessage)
  {
    match m
    case Update(_, rects) => |rects| < 0x1_0000 && forall r | r in rects :: RectFits(r)
    case ColourMap(_, _, entries, colours) => |colours| == (entries as int) * 6
    case Bell => true
    case CutText(pads, text) => |pads| == 3 && |text| < 0x1_0000_0000
  }

  function PrintRect(r: ServerRect): bytes
  {
    match r
    case RawRect(x, y, w, h, pixels) => PrintRectHeader(RectHeader(x, y, w, h, 0)) + pixels
    case CopyRect(x, y, w, h, sx, sy) => PrintRectHeader(RectHeader(x, y, w, h, 1)) + (Be16(sx) + Be16(sy))
    case DesktopSize(x, y, w, h) => PrintRectHeader(RectHeader(x, y, w, h, -223))
  }

  function PrintRects(rs: seq<ServerRect>): bytes
  {
    if rs == [] then [] else PrintRect(rs[0]) + PrintRects(rs[1..])
  }

  function PrintMessage(m: ServerMessage): bytes
    requires MessageFits(m)
  {
    match m
    case Update(padding, rects) => ([0, padding] + Be16(|rects|)) + PrintRects(rects)
    case ColourMap(padding, first, entries, colours) => ([1, padding] + Be16(first) + Be16(entries)) + colours
    case Bell => [2]
    case CutText(pads, text) => ([3] + pads + Be32(|text|)) + text
  }

  function PrintMessages(ms: seq<ServerMessage>): bytes
    requires forall m | m in ms :: MessageFits(m)
  {
    if ms == [] then [] else PrintMessage(ms[0]) + PrintMessages(ms[1..])
  }

  /** What the frontend must be shown for a rectangle. */
  function EventOf(r: ServerRect): Event
  {
    match r
    case RawRect(x, y, w, h, pixels) => Raw(x, y, w, h, pixels)
    case CopyRect(x, y, w, h, sx, sy) => Copy(x, y, w, h, sx, sy)
    case DesktopSize(_, _, w, h) => Resize(w, h)
  }

  function EventsOf(rs: seq<ServerRect>): seq<Event>
  {
    if rs == [] then [] else [EventOf(rs[0])] + EventsOf(rs[1..])
  }

  function EventsOfAll(ms: seq<ServerMessage>): seq<Event>
  {
    if ms == [] then []
    else (if ms[0].Update? then EventsOf(ms[0].rects) else []) + EventsOfAll(ms[1..])
  }

  // ---- The pump undoes the printer ----

  lemma RectRoundTrip(r: ServerRect, rest: bytes)
    requires RectFits(r)
    ensures ReadRect(PrintRect(r) + rest) == Go([EventOf(r)], rest)
  {
    hide PixelBytes, ParseRectHeader, PrintRectHeader;
    var header := RectHeader(r.x, r.y, r.w, r.h, if r.RawRect? then 0 else if r.CopyRect? then 1 else -223);
    RectHeaderRoundTrip(header);
    var s := PrintRect(r) + rest;
    assert s[..12] == PrintRectHeader(header);
    match r {
      case RawRect(x, y, w, h, pixels) =>
        assert s[12..] == pixels + rest;
      case CopyRect(x, y, w, h, sx, sy) =>
        assert s[12..] == Be16(sx) + Be16(sy) + rest;
        assert s[12..][0..2] == Be16(sx) && s[12..][2..4] == Be16(sy) && s[12..][4..] == rest;
        Be16RoundTrip(sx);
        Be16RoundTrip(sy);
      case DesktopSize(x, y, w, h) =>
        assert s[12..] == rest;
    }
  }

  lemma {:induction false} RectsRoundTrip(rs: seq<ServerRect>, rest: bytes)
    requires forall r | r in rs :: RectFits(r)
    ensures ReadRects(PrintRects(rs) + rest, |rs|) == Go(EventsOf(rs), rest)
  {
    hide ReadRect, PrintRect;
    if rs == [] {
      assert PrintRects(rs) + rest == rest;
    } else {
      RectRoundTrip(rs[0], PrintRects(rs[1..]) + rest);
      RectsRoundTrip(rs[1..], rest);
      assert PrintRects(rs) + rest == PrintRect(rs[0]) + (PrintRects(rs[1..]) + rest);
    }
  }

  lemma UpdateRoundTrip(padding: u8, rects: seq<ServerRect>, rest: bytes)
    requires MessageFits(Update(padding, rects))
    ensures ReadMessage(PrintMessage(Update(padding, rects)) + rest) == Go(EventsOf(rects), rest)
  {
    hide ReadRects, PrintRects, FromBe16;
    var h := [0, padding] + Be16(|rects|);
    var s := h + PrintRects(rects) + rest;
    assert |h| == 4 && h[2..4] == Be16(|rects|);
    assert s[2..4] == h[2..4] && s[4..] == PrintRects(rects) + rest;
    Be16RoundTrip(|rects|);
    RectsRoundTrip(rects, rest);
  }

  lemma ColourMapRoundTrip(padding: u8, first: u16, entries: u16, colours: bytes, rest: bytes)
    requires MessageFits(ColourMap(padding, first, entries, colours))
    ensures ReadMessage(PrintMessage(ColourMap(padding, first, entries, colours)) + rest) == Go([], rest)
  {
    hide FromBe16;
    var h := [1, padding] + Be16(first) + Be16(entries);
    var s := h + colours + rest;
    assert |h| == 6 && h[4..6] == Be16(entries);
    assert s[4..6] == h[4..6] && s[6..] == colours + rest;
    Be16RoundTrip(entries);
    assert (colours + rest)[|colours|..] == rest;
  }

  lemma CutTextRoundTrip(pads: bytes, text: bytes, rest: bytes)
    requires MessageFits(CutText(pads, text))
    ensures ReadMessage(PrintMessage(CutText(pads, text)) + rest) == Go([], rest)
  {
    hide FromBe32, Be32;
    Be32RoundTrip(|text|);
    var h := [3] + pads + Be32(|text|);
    var s := h + text + rest;
    assert |h| == 8 && h[4..8] == Be32(|text|);
    assert s[4..8] == h[4..8] && s[8..] == text + rest;
    assert (text + rest)[|text|..] == rest;
  }

  lemma MessageRoundTrip(m: ServerMessage, rest: bytes)
    requires MessageFits(m)
    ensures ReadMessage(PrintMessage(m) + rest) == Go(if m.Update? then EventsOf(m.rects) else [], rest)
  {
    match m {
      case Update(padding, rects) => hide *; UpdateRoundTrip(padding, rects, rest);
      case ColourMap(padding, first, entries, colours) => hide *; ColourMapRoundTrip(padding, first, entries, colours, rest);
      case Bell => assert ([2] + rest)[1..] == rest;
      case CutText(pads, text) => hide *; CutTextRoundTrip(pads, text, rest);
    }
  }

  /** Behind any printed messages the pump has emitted exactly their events and reads on. */
  lemma {:induction false} PumpUndoesPrinting(ms: seq<ServerMessage>, rest: bytes)
    requires forall m | m in ms :: MessageFits(m)
    ensures Pump(PrintMessages(ms) + rest) == Pumped(EventsOfAll(ms) + Pump(rest).events, Pump(rest).error)
  {
    hide ReadMessage, PrintMessage, EventsOf;
    if ms == [] {
      assert PrintMessages(ms) + rest == rest;
    } else {
      var tail := PrintMessages(ms[1..]) + rest;
      PumpOneMessage(ms[0], tail);
      PumpUndoesPrinting(ms[1..], rest);
      hide Pump;
      Assoc(PrintMessage(ms[0]), PrintMessages(ms[1..]), rest);
      Assoc(if ms[0].Update? then EventsOf(ms[0].rects) else [], EventsOfAll(ms[1..]), Pump(rest).events);
    }
  }

  lemma PumpOneMessage(m: ServerMessage, tail: bytes)
    requires MessageFits(m)
    ensures Pump(PrintMessage(m) + tail) ==
            Pumped((if m.Update? then EventsOf(m.rects) else []) + Pump(tail).events, Pump(tail).error)
  {
    hide ReadMessage, PrintMessage, EventsOf;
    MessageRoundTrip(m, tail);
  }

  /** On exactly the printed bytes it emits exactly their events and meets the end of the stream. */
  lemma PumpOfPrinted(ms: seq<ServerMessage>)
    requires forall m | m in ms :: MessageFits(m)
    ensures Pump(PrintMessages(ms)) == Pumped(EventsOfAll(ms), Io)
  {
    PumpUndoesPrinting(ms, []);
    assert PrintMessages(ms) + [] == PrintMessages(ms);
    assert Pump([]) == Pumped([], Io);
  }

  // ---- A connection that breaks anywhere ----

  /** `t` continues where `s` ran out of bytes, or repeats what `s` already decided. */
  ghost predicate Continues(s: Step, t: Step, more: bytes)
  {
    match s
    case Go(events, rest) => t == Go(events, rest + more)
    case Halt(events, error) => if error == Io then events <= t.events else t == s
  }

  lemma ReadRectContinues(s: bytes, more: bytes)
    ensures Continues(ReadRect(s), ReadRect(s + more), more)
  {
    hide PixelBytes, FromBe16, FromBe32, Signed;
    if |s| >= 12 {
      var r, body := ParseRectHeader(s[..12]).value, s[12..];
      assert (s + more)[..12] == s[..12] && (s + more)[12..] == body + more;
      var size := PixelBytes(r.width, r.height);
      if |body| >= size {
        assert (body + more)[..size] == body[..size] && (body + more)[size..] == body[size..] + more;
      }
      if |body| >= 4 {
        assert (body + more)[0..2] == body[0..2] && (body + more)[2..4] == body[2..4];
        assert (body + more)[4..] == body[4..] + more;
      }
    }
  }

  lemma {:induction false} ReadRectsContinues(s: bytes, n: nat, more: bytes)
    ensures Continues(ReadRects(s, n), ReadRects(s + more, n), more)
    decreases n
  {
    hide ReadRect;
    if n > 0 {
      ReadRectContinues(s, more);
      match ReadRect(s) {
        case Go(events, rest) => ReadRectsContinues(rest, n - 1, more);
        case Halt(events, error) =>
      }
    }
  }

  lemma ReadMessageContinues(s: bytes, more: bytes)
    ensures Continues(ReadMessage(s), ReadMessage(s + more), more)
  {
    hide ReadRects, FromBe16, FromBe32;
    var t := s + more;
    if |s| == 0 {
    } else if s[0] == 0 && |s| >= 4 {
      assert t[2..4] == s[2..4] && t[4..] == s[4..] + more;
      ReadRectsContinues(s[4..], FromBe16(s[2..4]), more);
    } else if s[0] == 1 && |s| >= 6 {
      assert t[4..6] == s[4..6] && t[6..] == s[6..] + more;
      SkipContinues(s[6..], (FromBe16(s[4..6]) as int) * 6, more);
    } else if s[0] == 2 {
      assert t[1..] == s[1..] + more;
    } else if s[0] == 3 && |s| >= 8 {
      assert t[4..8] == s[4..8] && t[8..] == s[8..] + more;
      SkipContinues(s[8..], FromBe32(s[4..8]), more);
    }
  }

  lemma SkipContinues(s: bytes, n: nat, more: bytes)
    ensures Continues(Skip(s, n), Skip(s + more, n), more)
  {
    assert |s| >= n ==> (s + more)[n..] == s[n..] + more;
  }

  /**
   * Cut a stream anywhere: what was emitted before the cut is a prefix of what the whole stream
   * emits, and an error other than the end of the stream does not depend on later bytes.
   */
  lemma {:induction false} PumpContinues(s: bytes, more: bytes)
    ensures Pump(s).events <= Pump(s + more).events
    ensures Pump(s).error != Io ==> Pump(s + more) == Pump(s)
    decreases |s|
  {
    hide ReadMessage;
    ReadMessageContinues(s, more);
    match ReadMessage(s) {
      case Halt(events, error) =>
      case Go(events, rest) =>
        ReadMessageShrinks(s);
        PumpContinues(rest, more);
    }
  }

  /** A printed stream that breaks off emits a prefix of the printed events, never anything else. */
  lemma PumpOfTruncated(ms: seq<ServerMessage>, cut: nat)
    requires forall m | m in ms :: MessageFits(m)
    requires cut <= |PrintMessages(ms)|
    ensures Pump(PrintMessages(ms)[..cut]).events <= EventsOfAll(ms)
    ensures Pump(PrintMessages(ms)[..cut]).error == Io
  {
    var all := PrintMessages(ms);
    assert all[..cut] + all[cut..] == all;
    PumpContinues(all[..cut], all[cut..]);
    PumpOfPrinted(ms);
  }
}

/**
 The RFB handshake of the VNC client (sections 7.1 to 7.3 of RFC 6143): version, security type,
 password challenge, security result, ServerInit.  The specification is a function of the bytes the
 server sends; the theorems run it against servers of every version and security-type list.
 */
module RfbHandshake {
  import opened Prelude
  import opened Rfb
  import opened RfbClient

  datatype HandshakeError =
    | Closed
    | BadVersion
    | UnsupportedVersion(major: u8, minor: u8)
    | Rejected(reason: bytes)
    | NoSecurityType
    | AuthFailed
    | BadServerInit

  datatype Outcome = Connected(si: ServerInit) | Failed(error: HandshakeError)

  /** How a handshake ends: its result, the bytes not read and the bytes written. */
  datatype Run = Run(outcome: Outcome, rest: bytes, written: bytes)

  /** A block cipher: the DES step itself is not modelled, only where its blocks go. */
  type Cipher = (seq<bv8>, bytes) -> bytes

  function AuthResponse(des: Cipher, password: seq<bv8>, challenge: bytes): bytes
    requires |challenge| == 16
  {
    des(DesKey(password), challenge[0..8]) + des(DesKey(password), challenge[8..16])
  }

  /** 32 bits a pixel, little-endian, red in the low byte. */
  const WIRE_FORMAT := PixelFormat(32, 24, false, true, 255, 255, 255, 0, 8, 16)
  const ENCODINGS: seq<i32> := [0, 1, -223]

  function PrintEncodings(encodings: seq<i32>): bytes
  {
    if encodings == [] then [] else PrintEncodings(encodings[..|encodings| - 1]) + Be32(Unsigned(encodings[|encodings| - 1]))
  }

  function SetPixelFormat(): bytes
  {
    [0, 0, 0, 0] + PrintPixelFormat(WIRE_FORMAT, 0, 1, [0, 0, 0])
  }

  function SetEncodings(): bytes
  {
    [2, 0] + Be16(3) + PrintEncodings(ENCODINGS)
  }

  // ---- The handshake as a function of the server's bytes ----

  /** The security type chosen from the offered ones. */
  function Choose(types: bytes, wantAuth: bool): Option<u8>
  {
    if 2 in types && wantAuth then Some(2)
    else if 1 in types then Some(1)
    else if 2 in types then Some(2)
    else None
  }

  function Min(a: int, b: int): int
  {
    if a <= b then a else b
  }

  function Handshake(des: Cipher, password: seq<bv8>, s: bytes, written: bytes): Run
  {
    if |s| < 12 then Run(Failed(Closed), [], written)
    else
      match ParseProtocolVersion(s[..12])
      case None => Run(Failed(BadVersion), s[12..], written)
      case Some((major, minor)) =>
        if major != 3 || minor < 7 then Run(Failed(UnsupportedVersion(major, minor)), s[12..], written)
        else
          var reply: u8 := Min(minor, 8);
          Negotiate(des, password, reply, s[12..], written + EncodeProtocolVersion(3, reply))
  }

  function Negotiate(des: Cipher, password: seq<bv8>, reply: u8, s: bytes, written: bytes): Run
  {
    if |s| < 1 then Run(Failed(Closed), [], written)
    else if s[0] == 0 then Refusal(s[1..], written)
    else if |s[1..]| < s[0] then Run(Failed(Closed), [], written)
    else
      var types, rest := s[1..][..s[0]], s[1..][s[0]..];
      match Choose(types, password != [])
      case None => Run(Failed(NoSecurityType), rest, written)
      case Some(chosen) => Authenticate(des, password, reply, chosen, rest, written + [chosen])
  }

  /** The server's reason; a reason cut short is taken for an empty one. */
  function Refusal(s: bytes, written: bytes): Run
  {
    if |s| < 4 then Run(Failed(Closed), [], written)
    else
      var n := FromBe32(s[..4]);
      if |s[4..]| < n then Run(Failed(Rejected([])), [], written)
      else Run(Failed(Rejected(s[4..][..n])), s[4..][n..], written)
  }

  function Authenticate(des: Cipher, password: seq<bv8>, reply: u8, chosen: u8, s: bytes, written: bytes): Run
  {
    if chosen == 2 then
      if |s| < 16 then Run(Failed(Closed), [], written)
      else Confirm(s[16..], written + AuthResponse(des, password, s[..16]))
    else if reply >= 8 then Confirm(s, written)
    else Initialise(s, written)
  }

  function Confirm(s: bytes, written: bytes): Run
  {
    if |s| < 4 then Run(Failed(Closed), [], written)
    else if FromBe32(s[..4]) != 0 then Run(Failed(AuthFailed), s[4..], written)
    else Initialise(s[4..], written)
  }

  function Initialise(s: bytes, written: bytes): Run
  {
    var asked := written + [1];
    if |s| < 24 then Run(Failed(Closed), [], asked)
    else
      var n := FromBe32(s[20..24]);
      if |s[24..]| < n then Run(Failed(Closed), [], asked)
      else
        match ParseServerInit(s[..24] + s[24..][..n])
        case None => Run(Failed(BadServerInit), s[24..][n..], asked)
        case Some(si) => Run(Connected(si), s[24..][n..], asked + SetPixelFormat() + SetEncodings())
  }

  // ---- The handshake ----

  method SetEncodingsMsg() returns (m: bytes)
    ensures m == SetEncodings()
  {
    var encs := ENCODINGS;
    m := [2, 0] + Be16(|encs|);
    for i := 0 to |encs|
      invariant m == [2, 0] + Be16(3) + PrintEncodings(encs[..i])
    {
      m := m + Be32(Unsigned(encs[i]));
      assert encs[..i + 1][..i] == encs[..i];
    }
    assert encs[..|encs|] == encs;
  }

  method DoHandshake(rd: Inbound, wr: Outbound, password: seq<bv8>, des: Cipher) returns (outcome: Outcome)
    requires rd.Valid()
    modifies rd, wr
    ensures rd.Valid()
    ensures Run(outcome, rd.Rest(), wr.written) == Handshake(des, password, old(rd.Rest()), old(wr.written))
  {
    hide ParseProtocolVersion, EncodeProtocolVersion, Negotiate;
    var ver := rd.ReadExact(12);
    if ver == None { return Failed(Closed); }
    var v := ParseProtocolVersion(ver.value);
    if v == None { return Failed(BadVersion); }
    var (smaj, smin) := v.value;
    if smaj != 3 || smin < 7 { return Failed(UnsupportedVersion(smaj, smin)); }
    var replyMinor: u8 := Min(smin, 8);
    wr.WriteAll(EncodeProtocolVersion(3, replyMinor));
    outcome := DoNegotiate(rd, wr, password, des, replyMinor);
  }

  method DoNegotiate(rd: Inbound, wr: Outbound, password: seq<bv8>, des: Cipher, replyMinor: u8)
    returns (outcome: Outcome)
    requires rd.Valid()
    modifies rd, wr
    ensures rd.Valid()
    ensures Run(outcome, rd.Rest(), wr.written) == Negotiate(des, password, replyMinor, old(rd.Rest()), old(wr.written))
  {
    hide FromBe32, Authenticate;
    ghost var s := rd.Rest();
    var count := rd.ReadExact(1);
    if count == None { return Failed(Closed); }
    if count.value[0] == 0 {
      var rl := rd.ReadExact(4);
      if rl == None { return Failed(Closed); }
      var reason := rd.ReadExact(FromBe32(rl.value));
      return Failed(Rejected(if reason.Some? then reason.value else []));
    }
    var types := rd.ReadExact(count.value[0]);
    if types == None { return Failed(Closed); }
    var hasNone, hasVnc := 1 in types.value, 2 in types.value;
    var wantAuth := password != [];
    var chosen: u8;
    if hasVnc && wantAuth {
      chosen := 2;
    } else if hasNone {
      chosen := 1;
    } else if hasVnc {
      chosen := 2;
    } else {
      return Failed(NoSecurityType);
    }
    wr.WriteAll([chosen]);
    outcome := DoAuthenticate(rd, wr, password, des, replyMinor, chosen);
  }

  method DoAuthenticate(rd: Inbound, wr: Outbound, password: seq<bv8>, des: Cipher, replyMinor: u8, chosen: u8)
    returns (outcome: Outcome)
    requires rd.Valid()
    modifies rd, wr
    ensures rd.Valid()
    ensures Run(outcome, rd.Rest(), wr.written)
         == Authenticate(des, password, replyMinor, chosen, old(rd.Rest()), old(wr.written))
  {
    hide FromBe32, Initialise, AuthResponse;
    if chosen == 2 {
      var challenge := rd.ReadExact(16);
      if challenge == None { return Failed(Closed); }
      wr.WriteAll(AuthResponse(des, password, challenge.value));
    }
    if chosen == 2 || replyMinor >= 8 {
      var result := rd.ReadExact(4);
      if result == None { return Failed(Closed); }
      if FromBe32(result.value) != 0 { return Failed(AuthFailed); }
    }
    outcome := DoInitialise(rd, wr);
  }

  method DoInitialise(rd: Inbound, wr: Outbound) returns (outcome: Outcome)
    requires rd.Valid()
    modifies rd, wr
    ensures rd.Valid()
    ensures Run(outcome, rd.Rest(), wr.written) == Initialise(old(rd.Rest()), old(wr.written))
  {
    hide FromBe32, ParseServerInit, SetPixelFormat, SetEncodings;
    wr.WriteAll([1]);
    ghost var s := rd.Rest();
    var head := rd.ReadExact(24);
    if head == None { return Failed(Closed); }
    assert s[..24][20..24] == s[20..24];
    var name := rd.ReadExact(FromBe32(head.value[20..24]));
    if name == None { return Failed(Closed); }
    var si := ParseServerInit(head.value + name.value);
    if si == None { return Failed(BadServerInit); }
    wr.WriteAll(SetPixelFormat());
    var encodings := SetEncodingsMsg();
    wr.WriteAll(encodings);
    outcome := Connected(si.value);
  }

  // ---- The server ----

  /** A server of version 3.`minor`: everything it may send, before the client's choices. */
  datatype Server = Server(
    minor: nat, types: bytes, reason: bytes, challenge: bytes, result: u32,
    si: ServerInit, bigEndian: u8, trueColor: u8, padding: bytes)

  predicate IsServer(sv: Server)
  {
    sv.minor < 1000 && |sv.types| < 256 && |sv.reason| < 0x1_0000_0000 && |sv.challenge| == 16
    && |sv.si.name| < 0x1_0000_0000 && |sv.padding| == 3
    && IsFlag(sv.bigEndian, sv.si.format.bigEndian) && IsFlag(sv.trueColor, sv.si.format.trueColor)
  }

  /** From version 3.8 on a result follows every security type, before only VNC authentication. */
  predicate SendsResult(sv: Server, chosen: u8)
  {
    chosen == 2 || sv.minor >= 8
  }

  /** Security types, or none and the reason for refusing. */
  function PrintTypes(sv: Server): bytes
    requires IsServer(sv)
  {
    if sv.types == [] then [0] + Be32(|sv.reason|) + sv.reason else [|sv.types|] + sv.types
  }

  /** What follows the client's choice. */
  function PrintSession(sv: Server, chosen: u8): bytes
    requires IsServer(sv)
  {
    (if chosen == 2 then sv.challenge else [])
    + ((if SendsResult(sv, chosen) then Be32(sv.result) else [])
       + (if SendsResult(sv, chosen) && sv.result != 0 then FailureReason(sv)
          else PrintServerInit(sv.si, sv.bigEndian, sv.trueColor, sv.padding)))
  }

  /** From version 3.8 on a failed result is followed by the reason (section 7.1.3 of RFC 6143). */
  function FailureReason(sv: Server): bytes
    requires IsServer(sv)
  {
    if sv.minor >= 8 then Be32(|sv.reason|) + sv.reason else []
  }

  /** What the client leaves unread: it gives up on a failed result without reading its reason. */
  function Unread(sv: Server, wantAuth: bool): bytes
    requires IsServer(sv)
  {
    var chosen := Choose(sv.types, wantAuth);
    if chosen.Some? && SendsResult(sv, chosen.value) && sv.result != 0 then FailureReason(sv) else []
  }

  function PrintServer(sv: Server, wantAuth: bool): bytes
    requires IsServer(sv)
  {
    var chosen := Choose(sv.types, wantAuth);
    VersionLine(3, sv.minor) + (PrintTypes(sv) + (if chosen.Some? then PrintSession(sv, chosen.value) else []))
  }

  /** What the client should make of such a server. */
  function Expected(sv: Server, wantAuth: bool): Outcome
  {
    var chosen := Choose(sv.types, wantAuth);
    if sv.types == [] then Failed(Rejected(sv.reason))
    else if chosen == None then Failed(NoSecurityType)
    else if SendsResult(sv, chosen.value) && sv.result != 0 then Failed(AuthFailed)
    else Connected(sv.si)
  }

  // ---- Results ----

  lemma InitialiseReadsServerInit(sv: Server, rest: bytes, written: bytes)
    requires IsServer(sv)
    ensures Initialise(PrintServerInit(sv.si, sv.bigEndian, sv.trueColor, sv.padding) + rest, written)
         == Run(Connected(sv.si), rest, written + [1] + SetPixelFormat() + SetEncodings())
  {
    hide ParseServerInit, PrintServerInit, FromBe32, SetPixelFormat, SetEncodings;
    var b := PrintServerInit(sv.si, sv.bigEndian, sv.trueColor, sv.padding);
    ServerInitRoundTrip(sv.si, sv.bigEndian, sv.trueColor, sv.padding);
    var s := b + rest;
    assert s[20..24] == b[20..24];
    assert s[24..] == b[24..] + rest;
    assert s[24..][..|sv.si.name|] == b[24..] && s[24..][|sv.si.name|..] == rest;
    assert s[..24] + b[24..] == b;
  }

  lemma ConfirmReadsResult(sv: Server, rest: bytes, written: bytes)
    requires IsServer(sv)
    ensures Confirm(Be32(sv.result)
                    + (if sv.result != 0 then [] else PrintServerInit(sv.si, sv.bigEndian, sv.trueColor, sv.padding))
                    + rest, written)
         == if sv.result != 0 then Run(Failed(AuthFailed), rest, written)
            else Run(Connected(sv.si), rest, written + [1] + SetPixelFormat() + SetEncodings())
  {
    hide Initialise, PrintServerInit, FromBe32, Be32, SetPixelFormat, SetEncodings;
    Be32RoundTrip(sv.result);
    var tail := (if sv.result != 0 then [] else PrintServerInit(sv.si, sv.bigEndian, sv.trueColor, sv.padding)) + rest;
    var s := Be32(sv.result) + tail;
    assert s[..4] == Be32(sv.result) && s[4..] == tail;
    if sv.result == 0 {
      InitialiseReadsServerInit(sv, rest, written);
    }
    assert Be32(sv.result)
           + (if sv.result != 0 then [] else PrintServerInit(sv.si, sv.bigEndian, sv.trueColor, sv.padding))
           + rest == s;
  }

  lemma AuthenticateReadsSession(des: Cipher, password: seq<bv8>, sv: Server, chosen: u8, rest: bytes, written: bytes)
    requires IsServer(sv) && sv.minor >= 7 && chosen in [1, 2]
    ensures var run := Authenticate(des, password, Min(sv.minor, 8), chosen, PrintSession(sv, chosen) + rest, written);
            run.rest == (if SendsResult(sv, chosen) && sv.result != 0 then FailureReason(sv) else []) + rest
            && run.outcome == if SendsResult(sv, chosen) && sv.result != 0 then Failed(AuthFailed) else Connected(sv.si)
  {
    hide Initialise, Confirm, PrintServerInit, Be32, AuthResponse, FailureReason;
    var failed := SendsResult(sv, chosen) && sv.result != 0;
    var init := if failed then [] else PrintServerInit(sv.si, sv.bigEndian, sv.trueColor, sv.padding);
    var rest1 := (if failed then FailureReason(sv) else []) + rest;
    var s := PrintSession(sv, chosen) + rest;
    if chosen == 2 {
      var answered := written + AuthResponse(des, password, sv.challenge);
      assert s[..16] == sv.challenge && s[16..] == Be32(sv.result) + init + rest1;
      ConfirmReadsResult(sv, rest1, answered);
    } else if sv.minor >= 8 {
      assert s == Be32(sv.result) + init + rest1;
      ConfirmReadsResult(sv, rest1, written);
    } else {
      assert s == init + rest1;
      InitialiseReadsServerInit(sv, rest1, written);
    }
  }

  lemma RefusalReadsReason(sv: Server, rest: bytes, written: bytes)
    requires IsServer(sv)
    ensures Refusal(Be32(|sv.reason|) + sv.reason + rest, written) == Run(Failed(Rejected(sv.reason)), rest, written)
  {
    hide Be32, FromBe32;
    Be32RoundTrip(|sv.reason|);
    var s := Be32(|sv.reason|) + sv.reason + rest;
    assert s[..4] == Be32(|sv.reason|) && s[4..] == sv.reason + rest;
    assert (sv.reason + rest)[..|sv.reason|] == sv.reason && (sv.reason + rest)[|sv.reason|..] == rest;
  }

  lemma NegotiateReadsTypes(des: Cipher, password: seq<bv8>, sv: Server, rest: bytes, written: bytes)
    requires IsServer(sv) && sv.minor >= 7
    ensures var chosen := Choose(sv.types, password != []);
            var s := PrintTypes(sv) + (if chosen.Some? then PrintSession(sv, chosen.value) else []) + rest;
            var run := Negotiate(des, password, Min(sv.minor, 8), s, written);
            run.outcome == Expected(sv, password != []) && run.rest == Unread(sv, password != []) + rest
  {
    hide FailureReason, Authenticate, PrintSession, Refusal, Be32;
    var chosen := Choose(sv.types, password != []);
    var session := if chosen.Some? then PrintSession(sv, chosen.value) else [];
    var s := PrintTypes(sv) + session + rest;
    if sv.types == [] {
      assert s[1..] == Be32(|sv.reason|) + sv.reason + rest;
      assert Unread(sv, password != []) + rest == rest;
      RefusalReadsReason(sv, rest, written);
    } else {
      var n := |sv.types|;
      assert s[1..] == sv.types + (session + rest);
      assert s[0] == n && s[1..][..n] == sv.types && s[1..][n..] == session + rest;
      if chosen.Some? {
        AuthenticateReadsSession(des, password, sv, chosen.value, rest, written + [chosen.value]);
      } else {
        assert session + rest == rest == Unread(sv, password != []) + rest;
      }
    }
  }

  /**
   * Against a server of version 3.7 to 3.255, whatever security types it lists and whatever it
   * answers, the handshake ends as it should.  It reads exactly the server's bytes, except that it
   * leaves the reason of a failed security result, which such a server sends from 3.8 on.
   */
  lemma HandshakeWithServer(des: Cipher, password: seq<bv8>, sv: Server, rest: bytes)
    requires IsServer(sv) && 7 <= sv.minor <= 255
    ensures var run := Handshake(des, password, PrintServer(sv, password != []) + rest, []);
            && run.outcome == Expected(sv, password != [])
            && run.rest == Unread(sv, password != []) + rest
            && (run.outcome.Connected? ==> run.rest == rest)
            && (Unread(sv, password != []) == [] <==> run.outcome != Failed(AuthFailed) || sv.minor < 8)
  {
    hide ParseProtocolVersion, VersionLine, Negotiate, PrintTypes, PrintSession;
    VersionLineParses(3, sv.minor);
    VersionLineLength(3, sv.minor);
    var line := VersionLine(3, sv.minor);
    var chosen := Choose(sv.types, password != []);
    var session := if chosen.Some? then PrintSession(sv, chosen.value) else [];
    var s := PrintServer(sv, password != []) + rest;
    assert s[..12] == line && s[12..] == PrintTypes(sv) + session + rest;
    NegotiateReadsTypes(des, password, sv, rest, [] + EncodeProtocolVersion(3, Min(sv.minor, 8)));
  }

  lemma VersionLineLength(major: nat, minor: nat)
    requires major < 1000 && minor < 1000
    ensures |VersionLine(major, minor)| == 12
  {
  }

  /**
   * A willing server is connected to exactly when its minor version is one of 7 to 255: a version
   * such as 3.889 is above 3.8 but does not fit the byte it is parsed into.
   */
  lemma HandshakeVersions(des: Cipher, password: seq<bv8>, sv: Server, rest: bytes)
    requires IsServer(sv) && Expected(sv, password != []).Connected?
    ensures Handshake(des, password, PrintServer(sv, password != []) + rest, []).outcome.Connected?
            <==> 7 <= sv.minor <= 255
  {
    hide Handshake, PrintServer, Expected;
    if 7 <= sv.minor <= 255 {
      HandshakeWithServer(des, password, sv, rest);
    } else {
      OtherVersionsAreRefused(des, password, sv, rest);
    }
  }

  lemma OtherVersionsAreRefused(des: Cipher, password: seq<bv8>, sv: Server, rest: bytes)
    requires IsServer(sv) && !(7 <= sv.minor <= 255)
    ensures Handshake(des, password, PrintServer(sv, password != []) + rest, []).outcome.Failed?
  {
    hide ParseProtocolVersion, VersionLine, Negotiate, PrintTypes, PrintSession;
    VersionLineParses(3, sv.minor);
    VersionLineLength(3, sv.minor);
    assert (PrintServer(sv, password != []) + rest)[..12] == VersionLine(3, sv.minor);
  }

  /** The security types a server offers behind its version line. */
  function Offered(s: bytes): bytes
    requires |s| > 12 && |s[13..]| >= s[12]
  {
    s[13..][..s[12]]
  }

  lemma NegotiateWrites(des: Cipher, password: seq<bv8>, reply: u8, s: bytes, written: bytes)
    ensures written <= Negotiate(des, password, reply, s, written).written
    ensures |Negotiate(des, password, reply, s, written).written| > |written| ==>
              |s| >= 1 && |s[1..]| >= s[0]
              && Choose(s[1..][..s[0]], password != [])
                 == Some(Negotiate(des, password, reply, s, written).written[|written|])
  {
    hide FromBe32, Authenticate, Choose;
    if |s| >= 1 && |s[1..]| >= s[0] && Choose(s[1..][..s[0]], password != []).Some? {
      var chosen := Choose(s[1..][..s[0]], password != []).value;
      AuthenticateWrites(des, password, reply, chosen, s[1..][s[0]..], written + [chosen]);
    }
  }

  lemma AuthenticateWrites(des: Cipher, password: seq<bv8>, reply: u8, chosen: u8, s: bytes, written: bytes)
    ensures written <= Authenticate(des, password, reply, chosen, s, written).written
  {
    hide FromBe32, AuthResponse, ParseServerInit, SetPixelFormat, SetEncodings;
  }

  /** For every byte stream: the version replied is 3.7 or 3.8 and no higher than the one offered. */
  lemma HandshakeRepliesModestly(des: Cipher, password: seq<bv8>, s: bytes)
    ensures var w := Handshake(des, password, s, []).written;
            w == []
            || (|s| >= 12 && |w| >= 12 && ParseProtocolVersion(s[..12]).Some?
                && var minor := ParseProtocolVersion(s[..12]).value.1;
                   minor >= 7 && ParseProtocolVersion(w[..12]) == Some((3, Min(minor, 8))))
  {
    hide ParseProtocolVersion, VersionLine, Negotiate;
    if |s| >= 12 && ParseProtocolVersion(s[..12]).Some? {
      var (major, minor) := ParseProtocolVersion(s[..12]).value;
      if major == 3 && minor >= 7 {
        var m: u8 := Min(minor, 8);
        var line := EncodeProtocolVersion(3, m);
        VersionLineParses(3, m);
        VersionLineLength(3, m);
        assert [] + line == line;
        NegotiateWrites(des, password, m, s[12..], line);
        assert Negotiate(des, password, m, s[12..], line).written[..12] == line;
      }
    }
  }

  /**
   * For every byte stream: a security type written was offered, and it is None only without a
   * password or when VNC authentication is not on offer.
   */
  lemma HandshakeChoosesSoundly(des: Cipher, password: seq<bv8>, s: bytes)
    ensures var w := Handshake(des, password, s, []).written;
            |w| > 12 ==>
              |s| > 12 && |s[13..]| >= s[12] && w[12] in Offered(s)
              && ((w[12] == 1 && (password == [] || 2 !in Offered(s))) || w[12] == 2)
  {
    hide ParseProtocolVersion, VersionLine, Negotiate;
    if |s| >= 12 && ParseProtocolVersion(s[..12]).Some? {
      var (major, minor) := ParseProtocolVersion(s[..12]).value;
      if major == 3 && minor >= 7 {
        var m: u8 := Min(minor, 8);
        var line := EncodeProtocolVersion(3, m);
        VersionLineLength(3, m);
        assert [] + line == line;
        NegotiateWrites(des, password, m, s[12..], line);
        assert |s| > 12 ==> s[12..][1..] == s[13..];
      }
    }
  }

  /** The encodings the client asks for are exactly those its pump can read. */
  lemma AdvertisedEncodingsAreRead(h: RectHeader, rest: bytes)
    ensures (exists e :: ReadRect(PrintRectHeader(h) + rest) == Halt([], UnsupportedEncoding(e)))
            <==> h.encoding !in ENCODINGS
  {
    hide PrintRectHeader, ParseRectHeader, PixelBytes;
    RectHeaderRoundTrip(h);
    assert (PrintRectHeader(h) + rest)[..12] == PrintRectHeader(h);
    if h.encoding !in ENCODINGS {
      assert ReadRect(PrintRectHeader(h) + rest) == Halt([], UnsupportedEncoding(h.encoding));
    }
  }
}

/** Framing of requests between the client (python/src/netUtil.py) and the
    server (src/netUtil.c, app/server.c, src/services.c), and of the two
    messages the server sends to a listening client. */
module Wire {
  import opened Types
  import opened ByteIO
  import opened Decimal

  const MAX_MSG_SIZE := 256

  const REGISTER := "REGISTER"
  const UNREGISTER := "UNREGISTER"
  const CONNECT := "CONNECT"
  const DISCONNECT := "DISCONNECT"
  const SEND := "SEND"
  const SEND_MESSAGE := "SEND_MESSAGE"
  const SEND_MESS_ACK := "SEND_MESS_ACK"
  const END_LISTEN_THREAD := "END_LISTEN_THREAD"

  /** What the server's dispatcher makes of one connection. */
  datatype Request =
    | RegisterRequest(username: string)
    | UnregisterRequest(username: string)
    | ConnectRequest(username: string, port: string)
    | DisconnectRequest(username: string)
    | SendRequest(sender: string, recipient: string, content: string)
    | OtherRequest(opCode: string)

  ghost predicate NoNul(s: string) { forall i :: 0 <= i < |s| ==> s[i] != '\0' }

  function OpCode(r: Request): string {
    match r
    case RegisterRequest(_) => REGISTER
    case UnregisterRequest(_) => UNREGISTER
    case ConnectRequest(_, _) => CONNECT
    case DisconnectRequest(_) => DISCONNECT
    case SendRequest(_, _, _) => SEND
    case OtherRequest(op) => op
  }

  /** The fields that follow the operation code, in sending order. */
  function Arguments(r: Request): seq<string> {
    match r
    case ConnectRequest(u, port) => [u, port]
    case SendRequest(sender, recipient, content) => [sender, recipient, content]
    case OtherRequest(_) => []
    case _ => [r.username]
  }

  function Framed(fields: seq<string>): string {
    if fields == [] then "" else fields[0] + "\0" + Framed(fields[1..])
  }

  function Encode(r: Request): string { OpCode(r) + "\0" + Framed(Arguments(r)) }

  function EncodeAll(rs: seq<Request>): string {
    if rs == [] then "" else Encode(rs[0]) + EncodeAll(rs[1..])
  }

  /** The text a field of `MAX_MSG_SIZE` bytes keeps. */
  function Kept(s: string): string { s[..Min(|s|, MAX_MSG_SIZE - 1)] }

  function KeptFields(fields: seq<string>): seq<string> {
    seq(|fields|, i requires 0 <= i < |fields| => Kept(fields[i]))
  }

  datatype Taken = Missing | Taken(field: string, rest: string)

  /** `recv_string` on a stream that still holds a terminator. */
  function Take(stream: string): Taken {
    var k := LineEnd(stream);
    if k == |stream| then Missing else Taken(Kept(stream[..k]), stream[k + 1..])
  }

  datatype TakenAll = MissingSome | TakenAll(fields: seq<string>, rest: string)

  function TakeMany(stream: string, n: nat): (t: TakenAll)
    ensures t.TakenAll? ==> |t.fields| == n
  {
    if n == 0 then TakenAll([], stream) else
      match Take(stream)
      case Missing => MissingSome
      case Taken(f, rest) =>
        match TakeMany(rest, n - 1)
        case MissingSome => MissingSome
        case TakenAll(fs, end) => TakenAll([f] + fs, end)
  }

  /** How many fields the dispatcher's service receives after the code. */
  function Arity(op: string): nat {
    if op == REGISTER || op == UNREGISTER || op == DISCONNECT then 1
    else if op == CONNECT then 2
    else if op == SEND then 3
    else 0
  }

  function Make(op: string, args: seq<string>): Request
    requires |args| == Arity(op)
  {
    if op == REGISTER then RegisterRequest(args[0])
    else if op == UNREGISTER then UnregisterRequest(args[0])
    else if op == CONNECT then ConnectRequest(args[0], args[1])
    else if op == DISCONNECT then DisconnectRequest(args[0])
    else if op == SEND then SendRequest(args[0], args[1], args[2])
    else OtherRequest(op)
  }

  datatype Decoded = Incomplete | Decoded(request: Request, rest: string)

  /** The receive order of the dispatcher and of each service. */
  function Decode(stream: string): Decoded {
    match Take(stream)
    case Missing => Incomplete
    case Taken(op, rest) =>
      match TakeMany(rest, Arity(op))
      case MissingSome => Incomplete
      case TakenAll(args, end) => Decoded(Make(op, args), end)
  }

  datatype DecodedAll = IncompleteAll | DecodedAll(requests: seq<Request>, rest: string)

  function DecodeAll(stream: string, n: nat): DecodedAll
    decreases n
  {
    if n == 0 then DecodedAll([], stream) else
      match Decode(stream)
      case Incomplete => IncompleteAll
      case Decoded(r, rest) =>
        match DecodeAll(rest, n - 1)
        case IncompleteAll => IncompleteAll
        case DecodedAll(rs, end) => DecodedAll([r] + rs, end)
  }

  /** The request that survives the server's field size. */
  function KeptRequest(r: Request): Request {
    match r
    case RegisterRequest(u) => RegisterRequest(Kept(u))
    case UnregisterRequest(u) => UnregisterRequest(Kept(u))
    case ConnectRequest(u, port) => ConnectRequest(Kept(u), Kept(port))
    case DisconnectRequest(u) => DisconnectRequest(Kept(u))
    case SendRequest(s, t, c) => SendRequest(Kept(s), Kept(t), Kept(c))
    case OtherRequest(op) => r
  }

  function KeptRequests(rs: seq<Request>): seq<Request> {
    seq(|rs|, i requires 0 <= i < |rs| => KeptRequest(rs[i]))
  }

  /** The five operations a client may ask for, all fields free of NUL and newline. */
  ghost predicate Sendable(r: Request) {
    && !r.OtherRequest?
    && forall i :: 0 <= i < |Arguments(r)| ==> Clean(Arguments(r)[i])
  }

  ghost predicate Short(r: Request) {
    forall i :: 0 <= i < |Arguments(r)| ==> |Arguments(r)[i]| < MAX_MSG_SIZE
  }

  lemma {:induction false} LineEndOfField(s: string, rest: string)
    requires Clean(s)
    ensures LineEnd(s + "\0" + rest) == |s|
  {
    if s != "" {
      LineEndOfField(s[1..], rest);
      assert (s + "\0" + rest)[1..] == s[1..] + "\0" + rest;
    }
  }

  lemma TakeField(s: string, rest: string)
    requires Clean(s)
    ensures Take(s + "\0" + rest) == Taken(Kept(s), rest)
  {
    LineEndOfField(s, rest);
    var stream := s + "\0" + rest;
    assert stream[..|s|] == s && stream[|s| + 1..] == rest;
  }

  lemma LineEndAtMost(s: string, i: nat)
    requires i < |s| && IsTerminator(s[i])
    ensures LineEnd(s) <= i
  {
  }

  /** One field: what comes out is what went in, with the rest of the stream
      in step, exactly for clean fields below the size limit. */
  lemma FieldRoundTrip(s: string, rest: string)
    ensures Take(s + "\0" + rest) == Taken(s, rest) <==> '\0' !in s && '\n' !in s && |s| <= 255
  {
    if Clean(s) {
      TakeField(s, rest);
    } else {
      var i :| 0 <= i < |s| && IsTerminator(s[i]);
      LineEndAtMost(s + "\0" + rest, i);
    }
  }

  lemma FramedFirst(fields: seq<string>, rest: string)
    requires fields != []
    ensures Framed(fields) + rest == fields[0] + "\0" + (Framed(fields[1..]) + rest)
  {
    var first := fields[0] + "\0";
    assert Framed(fields) == first + Framed(fields[1..]);
    Regroup(first, Framed(fields[1..]), rest);
  }

  lemma Regroup(a: string, b: string, c: string)
    ensures (a + b) + c == a + (b + c)
  {
  }

  lemma TakeManyFirst(stream: string, f: string, tail: string, fs: seq<string>, rest: string)
    requires Take(stream) == Taken(f, tail)
    requires TakeMany(tail, |fs|) == TakenAll(fs, rest)
    ensures TakeMany(stream, |fs| + 1) == TakenAll([f] + fs, rest)
  {
  }

  lemma KeptFieldsFirst(fields: seq<string>)
    requires fields != []
    ensures KeptFields(fields) == [Kept(fields[0])] + KeptFields(fields[1..])
  {
  }

  /** Any number of clean fields are received one by one, each cut to its
      first 255 bytes, and the bytes behind them are untouched. */
  lemma {:induction false} FieldsRoundTrip(fields: seq<string>, rest: string)
    requires forall i :: 0 <= i < |fields| ==> Clean(fields[i])
    ensures TakeMany(Framed(fields) + rest, |fields|) == TakenAll(KeptFields(fields), rest)
  {
    if fields == [] {
      assert Framed(fields) + rest == rest;
    } else {
      var tail, later := Framed(fields[1..]) + rest, KeptFields(fields[1..]);
      FramedFirst(fields, rest);
      TakeField(fields[0], tail);
      FieldsRoundTrip(fields[1..], rest);
      TakeManyFirst(fields[0] + "\0" + tail, Kept(fields[0]), tail, later, rest);
      KeptFieldsFirst(fields);
    }
  }

  lemma CodesAreClean(r: Request)
    requires !r.OtherRequest?
    ensures Clean(OpCode(r)) && Kept(OpCode(r)) == OpCode(r)
    ensures Arity(OpCode(r)) == |Arguments(r)|
    ensures Make(OpCode(r), Arguments(r)) == r
    ensures Make(OpCode(r), KeptFields(Arguments(r))) == KeptRequest(r)
  {
  }

  /** However long its fields, an encoded request is decoded field by field
      to the truncated request, and the bytes after it are untouched. */
  lemma RequestRoundTrip(r: Request, rest: string)
    requires Sendable(r)
    ensures Decode(Encode(r) + rest) == Decoded(KeptRequest(r), rest)
  {
    CodesAreClean(r);
    var op, args := OpCode(r), Arguments(r);
    var tail := Framed(args) + rest;
    assert Encode(r) + rest == op + "\0" + tail;
    TakeField(op, tail);
    FieldsRoundTrip(args, rest);
  }

  lemma DecodeFirst(r: Request, stream: string, tail: string, rs: seq<Request>, rest: string)
    requires Decode(stream) == Decoded(r, tail)
    requires DecodeAll(tail, |rs|) == DecodedAll(rs, rest)
    ensures DecodeAll(stream, |rs| + 1) == DecodedAll([r] + rs, rest)
  {
  }

  lemma EncodeAllFirst(rs: seq<Request>, rest: string)
    requires rs != []
    ensures EncodeAll(rs) + rest == Encode(rs[0]) + (EncodeAll(rs[1..]) + rest)
  {
    Regroup(Encode(rs[0]), EncodeAll(rs[1..]), rest);
  }

  lemma KeptRequestsFirst(rs: seq<Request>)
    requires rs != []
    ensures KeptRequests(rs) == [KeptRequest(rs[0])] + KeptRequests(rs[1..])
  {
  }

  /** Any sequence of requests in one stream decodes to those requests, each
      field cut to its first 255 bytes, and consumes exactly their bytes. */
  lemma {:induction false} StreamRoundTrip(rs: seq<Request>, rest: string)
    requires forall i :: 0 <= i < |rs| ==> Sendable(rs[i])
    ensures DecodeAll(EncodeAll(rs) + rest, |rs|) == DecodedAll(KeptRequests(rs), rest)
  {
    if rs == [] {
      assert EncodeAll(rs) + rest == rest;
    } else {
      var first, later, tail := KeptRequest(rs[0]), KeptRequests(rs[1..]), EncodeAll(rs[1..]) + rest;
      var stream := Encode(rs[0]) + tail;
      RequestRoundTrip(rs[0], tail);
      StreamRoundTrip(rs[1..], rest);
      DecodeFirst(first, stream, tail, later, rest);
      EncodeAllFirst(rs, rest);
      KeptRequestsFirst(rs);
    }
  }

  lemma ShortRequestKept(r: Request)
    requires Short(r)
    ensures KeptRequest(r) == r
  {
    assert forall i :: 0 <= i < |Arguments(r)| ==> Kept(Arguments(r)[i]) == Arguments(r)[i];
    match r {
      case ConnectRequest(u, p) => assert Arguments(r)[0] == u && Arguments(r)[1] == p;
      case SendRequest(s, t, c) => assert Arguments(r)[0] == s && Arguments(r)[1] == t && Arguments(r)[2] == c;
      case OtherRequest(_) =>
      case _ => assert Arguments(r)[0] == r.username;
    }
  }

  /** What a field of at most 255 bytes keeps of a text. */
  function Cut(s: string): string { if |s| <= 255 then s else s[..255] }

  /** The five requests, spelled out in bytes, and what each is decoded to. */
  lemma RequestSpelled(r: Request, rest: string)
    requires Sendable(r)
    ensures match r
            case RegisterRequest(u) =>
              Decode("REGISTER" + "\0" + u + "\0" + rest) == Decoded(RegisterRequest(Cut(u)), rest)
            case UnregisterRequest(u) =>
              Decode("UNREGISTER" + "\0" + u + "\0" + rest) == Decoded(UnregisterRequest(Cut(u)), rest)
            case DisconnectRequest(u) =>
              Decode("DISCONNECT" + "\0" + u + "\0" + rest) == Decoded(DisconnectRequest(Cut(u)), rest)
            case ConnectRequest(u, port) =>
              Decode("CONNECT" + "\0" + u + "\0" + port + "\0" + rest)
              == Decoded(ConnectRequest(Cut(u), Cut(port)), rest)
            case SendRequest(s, t, c) =>
              Decode("SEND" + "\0" + s + "\0" + t + "\0" + c + "\0" + rest)
              == Decoded(SendRequest(Cut(s), Cut(t), Cut(c)), rest)
            case OtherRequest(_) => true
  {
    EncodeSpelled(r);
    RequestRoundTrip(r, rest);
    assert forall s: string :: Kept(s) == Cut(s);
  }

  /** The wire protocol's promise: requests with clean fields of at most 255
      bytes arrive exactly as sent. */
  lemma RequestsArriveAsSent(rs: seq<Request>, rest: string)
    requires forall i :: 0 <= i < |rs| ==> Sendable(rs[i]) && Short(rs[i])
    ensures DecodeAll(EncodeAll(rs) + rest, |rs|) == DecodedAll(rs, rest)
  {
    StreamRoundTrip(rs, rest);
    forall i | 0 <= i < |rs| ensures KeptRequest(rs[i]) == rs[i] {
      ShortRequestKept(rs[i]);
    }
    assert KeptRequests(rs) == rs;
  }

  // Server side (src/netUtil.c)

  /** `recv_string`. */
  method RecvString(d: Descriptor) returns (result: int, field: string)
    modifies d`input, d`interrupts, d`readFailures
    ensures d.readFailures >= old(d.readFailures)
    ensures result == if d.readFailures > old(d.readFailures) then GEN_ERR_ANY else 0
    ensures result == 0 && Take(old(d.input)).Taken? ==> Take(old(d.input)) == Taken(field, d.input)
    ensures result == 0 && Take(old(d.input)).Missing? ==>
              d.input == "" && (old(d.input) != "" ==> field == Kept(old(d.input)))
  {
    var buffer := new char[MAX_MSG_SIZE](_ => '\0');
    var n := ReadLine(d, buffer, MAX_MSG_SIZE);
    if n < 0 {
      return GEN_ERR_ANY, "";
    }
    return 0, buffer[..n];
  }

  /** `send_string`: the text and its closing NUL. */
  method SendString(d: Descriptor, text: string) returns (result: int)
    modifies d`output, d`writeFailures
    ensures d.writeFailures >= old(d.writeFailures)
    ensures result == if d.writeFailures > old(d.writeFailures) then GEN_ERR_ANY else 0
    ensures result == 0 ==> d.output == old(d.output) + text + "\0"
    ensures result != 0 ==> old(d.output) <= d.output < old(d.output) + text + "\0"
  {
    var bytes := text + "\0";
    var n := WriteBytes(d, bytes, |text| + 1);
    assert bytes[..|text| + 1] == bytes;
    return if n < 0 then GEN_ERR_ANY else 0;
  }

  /** The receiving half of `service_thread` and of the five services: the
      connection's bytes are decoded in order, or a receive error ends the
      request early. A stream that ends before the last terminator is used up. */
  method ReceiveRequest(d: Descriptor) returns (result: int, request: Request)
    modifies d`input, d`interrupts, d`readFailures
    ensures d.readFailures >= old(d.readFailures)
    ensures result == if d.readFailures > old(d.readFailures) then GEN_ERR_ANY else 0
    ensures result == 0 && Decode(old(d.input)).Decoded? ==> Decode(old(d.input)) == Decoded(request, d.input)
    ensures result == 0 && Decode(old(d.input)).Incomplete? ==> d.input == ""
  {
    request := OtherRequest("");
    var op, args;
    result, op := RecvString(d);
    if result < 0 { return; }
    if op == REGISTER || op == UNREGISTER || op == DISCONNECT {
      result, args := ReceiveFields(d, 1);
    } else if op == CONNECT {
      result, args := ReceiveFields(d, 2);
    } else if op == SEND {
      result, args := ReceiveFields(d, 3);
    } else {
      args := [];
    }
    if result == 0 {
      request := Make(op, args);
    }
  }

  /** The run of `recv_string` calls at the head of a service, each giving up
      on the first error but not at the end of the stream. */
  method ReceiveFields(d: Descriptor, n: nat) returns (result: int, fields: seq<string>)
    modifies d`input, d`interrupts, d`readFailures
    ensures d.readFailures >= old(d.readFailures)
    ensures result == if d.readFailures > old(d.readFailures) then GEN_ERR_ANY else 0
    ensures result == 0 ==> |fields| == n
    ensures var all := TakeMany(old(d.input), n);
            && (result == 0 && all.TakenAll? ==> all == TakenAll(fields, d.input))
            && (result == 0 && all.MissingSome? ==> d.input == "")
  {
    if n == 0 {
      return 0, [];
    }
    var first, others;
    result, first := RecvString(d);
    if result < 0 { return result, []; }
    result, others := ReceiveFields(d, n - 1);
    fields := [first] + others;
  }

  /** The part of `clt_send_message` on an open connection: four strings, each
      only if the ones before it went out. */
  method SendMessage(d: Descriptor, sender: string, id: MsgId, content: string) returns (result: int)
    modifies d`output, d`writeFailures
    ensures result == if d.writeFailures > old(d.writeFailures) then GEN_ERR_ANY else SRV_SUCCESS
    ensures result == SRV_SUCCESS ==> d.output == old(d.output) + EncodeMessage(sender, id, content)
  {
    ghost var was := d.output;
    result := SendString(d, "SEND_MESSAGE");
    if result == 0 { result := SendString(d, sender); }
    if result == 0 { result := SendString(d, Print(id)); }
    if result == 0 { result := SendString(d, content); }
    if result < 0 {
      return GEN_ERR_ANY;
    }
    NoticeSpelled(sender, id, content);
    JoinFour(was, "SEND_MESSAGE", sender, Print(id), content);
    return SRV_SUCCESS;
  }

  /** The part of `clt_send_mess_ack` on an open connection; it looks at no result. */
  method SendAck(d: Descriptor, id: MsgId)
    modifies d`output, d`writeFailures
    ensures d.writeFailures >= old(d.writeFailures)
    ensures d.writeFailures == old(d.writeFailures) ==> d.output == old(d.output) + EncodeAck(id)
  {
    ghost var was := d.output;
    var ignored := SendString(d, "SEND_MESS_ACK");
    ignored := SendString(d, Print(id));
    NoticeSpelled("", id, "");
    if d.writeFailures == old(d.writeFailures) {
      Regroup(was, "SEND_MESS_ACK" + "\0", Print(id) + "\0");
    }
  }

  /** `send_server_reply`: one byte, the code. */
  method SendServerReply(d: Descriptor, code: int) returns (result: int)
    requires 0 <= code < 256
    modifies d`output, d`writeFailures
    ensures d.writeFailures >= old(d.writeFailures)
    ensures result == if d.writeFailures > old(d.writeFailures) then GEN_ERR_ANY else 0
    ensures d.output == if result == 0 then old(d.output) + [code as char] else old(d.output)
  {
    var n := WriteBytes(d, [code as char], 1);
    return if n < 0 then GEN_ERR_ANY else 0;
  }

  /** `aux_send_first_ack`: the code, and the identifier if it is success. */
  method SendFirstAck(d: Descriptor, code: int, id: MsgId)
    requires 0 <= code < 256
    modifies d`output, d`writeFailures
    ensures d.writeFailures >= old(d.writeFailures)
    ensures d.writeFailures == old(d.writeFailures) ==> d.output == old(d.output) + EncodeFirstAck(code, id)
  {
    var result := SendServerReply(d, code);
    if result < 0 {
      return;
    }
    if code == SRV_SUCCESS {
      result := SendString(d, Print(id));
      Regroup(old(d.output), [code as char], Print(id) + "\0");
    }
  }

  // Client side (python/src/netUtil.py)

  /** The client's end of a connection: `sendall` appends, `recv(1)` takes a byte. */
  class ClientSocket {
    var sent: string
    var incoming: string

    constructor (incoming: string)
      ensures sent == "" && this.incoming == incoming
    {
      sent, this.incoming := "", incoming;
    }

    method SendAll(bytes: string)
      modifies this`sent
      ensures sent == old(sent) + bytes
    {
      sent := sent + bytes;
    }

    /** `send_header`. */
    method SendHeader(opCode: string, username: string)
      modifies this`sent
      ensures sent == old(sent) + (opCode + "\0" + username + "\0")
    {
      SendAll(opCode);
      SendAll("\0");
      SendAll(username);
      SendAll("\0");
    }

    /** `send_header` for REGISTER, UNREGISTER and DISCONNECT,
        `send_connection_request` for CONNECT, `send_message_request` for SEND. */
    method SendRequestTo(r: Request)
      requires !r.OtherRequest?
      modifies this`sent
      ensures sent == old(sent) + Encode(r)
    {
      EncodeSpelled(r);
      match r {
        case ConnectRequest(u, port) =>
          SendHeader(OpCode(r), u);
          SendAll(port);
          SendAll("\0");
        case SendRequest(sender, recipient, content) =>
          SendHeader(OpCode(r), sender);
          SendAll(recipient);
          SendAll("\0");
          SendAll(content);
          SendAll("\0");
        case RegisterRequest(u) => SendHeader(OpCode(r), u);
        case UnregisterRequest(u) => SendHeader(OpCode(r), u);
        case DisconnectRequest(u) => SendHeader(OpCode(r), u);
      }
    }

    /** `receive_string`: only a NUL ends a string on this side. */
    method ReceiveString() returns (text: string)
      requires HearText(incoming).Taken?
      modifies this`incoming
      ensures HearText(old(incoming)) == Taken(text, incoming)
    {
      text := "";
      ghost var k := 0;
      while true
        invariant 0 <= k <= NulEnd(old(incoming))
        invariant text == old(incoming)[..k] && incoming == old(incoming)[k..]
        decreases |incoming|
      {
        var msg := incoming[0];
        incoming := incoming[1..];
        if msg == '\0' {
          break;
        }
        text := text + [msg];
        k := k + 1;
      }
    }

    /** One turn of the loop of `listen_and_accept`. */
    method ListenOnce() returns (notice: Notice)
      requires Listen(incoming).Heard?
      modifies this`incoming
      ensures Listen(old(incoming)) == Heard(notice, incoming)
    {
      var op := ReceiveString();
      ListenSpelled(op, incoming);
      if op == SEND_MESSAGE {
        var username := ReceiveString();
        var id := ReceiveString();
        var message := ReceiveString();
        notice := MakeNotice(op, [username, id, message]);
      } else if op == SEND_MESS_ACK {
        var id := ReceiveString();
        notice := MakeNotice(op, [id]);
      } else {
        notice := MakeNotice(op, []);
      }
    }
  }

  /** What a listener makes of an operation code and the stream after it. */
  function Follow(op: string, rest: string): Heard {
    match HearMany(rest, NoticeArity(op))
    case MissingSome => Silence
    case TakenAll(args, end) => Heard(MakeNotice(op, args), end)
  }

  lemma ListenSpelled(op: string, rest: string)
    requires Follow(op, rest).Heard?
    ensures op == SEND_MESSAGE ==>
              var a := HearText(rest);
              && a.Taken?
              && var b := HearText(a.rest);
              && b.Taken?
              && var c := HearText(b.rest);
              && c.Taken?
              && Follow(op, rest) == Heard(MakeNotice(op, [a.field, b.field, c.field]), c.rest)
    ensures op == SEND_MESS_ACK ==>
              var a := HearText(rest);
              a.Taken? && Follow(op, rest) == Heard(MakeNotice(op, [a.field]), a.rest)
    ensures NoticeArity(op) == 0 ==> Follow(op, rest) == Heard(MakeNotice(op, []), rest)
  {
    if op == SEND_MESSAGE {
      HearThree(rest);
    } else if op == SEND_MESS_ACK {
      HearOne(rest);
    }
  }

  /** The bytes of a request, one field after the other. */
  lemma EncodeSpelled(r: Request)
    ensures var head := OpCode(r) + "\0";
            match r
            case ConnectRequest(u, port) => Encode(r) == head + u + "\0" + port + "\0"
            case SendRequest(s, t, c) => Encode(r) == head + s + "\0" + t + "\0" + c + "\0"
            case OtherRequest(_) => Encode(r) == head
            case _ => Encode(r) == head + r.username + "\0"
  {
    FramedShort(Arguments(r));
  }

  lemma FramedShort(fields: seq<string>)
    requires |fields| <= 3
    ensures |fields| == 1 ==> Framed(fields) == fields[0] + "\0"
    ensures |fields| == 2 ==> Framed(fields) == fields[0] + "\0" + fields[1] + "\0"
    ensures |fields| == 3 ==> Framed(fields) == fields[0] + "\0" + fields[1] + "\0" + fields[2] + "\0"
  {
    if |fields| >= 2 {
      assert Framed(fields) == fields[0] + "\0" + Framed(fields[1..]);
      FramedShort(fields[1..]);
    }
  }

  // What the server sends to a listening client

  datatype Notice =
    | MessageNotice(sender: string, id: string, content: string)
    | AckNotice(id: string)
    | EndNotice
    | InvalidNotice

  function NulEnd(s: string): (k: nat)
    ensures k <= |s| && NoNul(s[..k])
    ensures k < |s| ==> s[k] == '\0'
  {
    if s == "" || s[0] == '\0' then 0 else
      var k := NulEnd(s[1..]);
      assert forall i :: 1 <= i < k + 1 ==> s[i] == s[1..][..k][i - 1];
      k + 1
  }

  function HearText(stream: string): Taken {
    var k := NulEnd(stream);
    if k == |stream| then Missing else Taken(stream[..k], stream[k + 1..])
  }

  function HearMany(stream: string, n: nat): (t: TakenAll)
    ensures t.TakenAll? ==> |t.fields| == n
  {
    if n == 0 then TakenAll([], stream) else
      match HearText(stream)
      case Missing => MissingSome
      case Taken(f, rest) =>
        match HearMany(rest, n - 1)
        case MissingSome => MissingSome
        case TakenAll(fs, end) => TakenAll([f] + fs, end)
  }

  function NoticeArity(op: string): nat {
    if op == SEND_MESSAGE then 3 else if op == SEND_MESS_ACK then 1 else 0
  }

  function MakeNotice(op: string, args: seq<string>): Notice
    requires |args| == NoticeArity(op)
  {
    if op == SEND_MESSAGE then MessageNotice(args[0], args[1], args[2])
    else if op == SEND_MESS_ACK then AckNotice(args[0])
    else if op == END_LISTEN_THREAD then EndNotice
    else InvalidNotice
  }

  datatype Heard = Silence | Heard(notice: Notice, rest: string)

  function Listen(stream: string): Heard {
    match HearText(stream)
    case Missing => Silence
    case Taken(op, rest) => Follow(op, rest)
  }

  lemma HearOne(stream: string)
    ensures HearMany(stream, 1) ==
            match HearText(stream)
            case Missing => MissingSome
            case Taken(a, rest) => TakenAll([a], rest)
  {
    match HearText(stream)
    case Missing =>
    case Taken(a, rest) =>
      assert HearMany(rest, 0) == TakenAll([], rest);
      assert [a] + [] == [a];
  }

  lemma HearThree(stream: string)
    requires HearMany(stream, 3).TakenAll?
    ensures var a := HearText(stream);
            && a.Taken?
            && var b := HearText(a.rest);
            && b.Taken?
            && var c := HearText(b.rest);
            && c.Taken?
            && HearMany(stream, 3) == TakenAll([a.field, b.field, c.field], c.rest)
  {
    var a := HearText(stream);
    assert HearMany(a.rest, 2).TakenAll?;
    var b := HearText(a.rest);
    assert HearMany(b.rest, 1).TakenAll?;
    HearOne(b.rest);
    var c := HearText(b.rest);
    assert [a.field] + ([b.field] + [c.field]) == [a.field, b.field, c.field];
  }

  lemma {:induction false} NulEndOfField(s: string, rest: string)
    requires NoNul(s)
    ensures NulEnd(s + "\0" + rest) == |s|
  {
    if s != "" {
      NulEndOfField(s[1..], rest);
      assert (s + "\0" + rest)[1..] == s[1..] + "\0" + rest;
    }
  }

  lemma HearField(s: string, rest: string)
    requires NoNul(s)
    ensures HearText(s + "\0" + rest) == Taken(s, rest)
  {
    NulEndOfField(s, rest);
    var stream := s + "\0" + rest;
    assert stream[..|s|] == s && stream[|s| + 1..] == rest;
  }

  lemma {:induction false} HearFields(fields: seq<string>, rest: string)
    requires forall i :: 0 <= i < |fields| ==> NoNul(fields[i])
    ensures HearMany(Framed(fields) + rest, |fields|) == TakenAll(fields, rest)
  {
    if fields == [] {
      assert Framed(fields) + rest == rest;
    } else {
      FramedFirst(fields, rest);
      HearField(fields[0], Framed(fields[1..]) + rest);
      HearFields(fields[1..], rest);
    }
  }

  /** What `clt_send_message` writes on a working connection. */
  function EncodeMessage(sender: string, id: MsgId, content: string): string {
    SEND_MESSAGE + "\0" + Framed([sender, Print(id), content])
  }

  /** What `clt_send_mess_ack` writes on a working connection. */
  function EncodeAck(id: MsgId): string {
    SEND_MESS_ACK + "\0" + Framed([Print(id)])
  }

  /** What the sender of a SEND is answered on a working connection. */
  function EncodeFirstAck(code: int, id: MsgId): string
    requires 0 <= code < 256
  {
    [code as char] + if code == 0 then Print(id) + "\0" else ""
  }

  /** The bytes of a message and of an acknowledgement. */
  lemma NoticeSpelled(sender: string, id: MsgId, content: string)
    ensures EncodeMessage(sender, id, content)
         == "SEND_MESSAGE" + "\0" + sender + "\0" + Print(id) + "\0" + content + "\0"
    ensures EncodeAck(id) == "SEND_MESS_ACK" + "\0" + Print(id) + "\0"
  {
    FramedShort([sender, Print(id), content]);
    FramedShort([Print(id)]);
  }

  lemma JoinFour(was: string, a: string, b: string, c: string, d: string)
    ensures was + a + "\0" + b + "\0" + c + "\0" + d + "\0"
         == was + (a + "\0" + b + "\0" + c + "\0" + d + "\0")
  {
  }

  /** The client reads the code from one byte (`receive_server_error_code`) and,
      on success, the identifier as a string. */
  lemma FirstAckArrives(code: int, id: MsgId, rest: string)
    requires 0 <= code < 256
    ensures var stream := EncodeFirstAck(code, id) + rest;
            && stream[0] as int == code
            && (code != 0 ==> stream[1..] == rest)
            && (code == 0 ==> HearText(stream[1..]) == Taken(Print(id), rest) && StrToUint(Print(id)) == Some(id))
  {
    PrintThenRead(id);
    DigitsHaveNoSlash(id);
    var head, tail := [code as char], if code == 0 then Print(id) + "\0" else "";
    Regroup(head, tail, rest);
    assert (head + (tail + rest))[1..] == tail + rest;
    if code == 0 {
      HearField(Print(id), rest);
    } else {
      assert tail + rest == rest;
    }
  }

  /** What the listener does with each operation code, END_LISTEN_THREAD and
      unknown ones included: the code decides the kind of notice, and only the
      two kinds with fields take more of the stream. */
  lemma NoticeKinds(stream: string)
    requires HearText(stream).Taken?
    ensures var op, heard := HearText(stream).field, Listen(stream);
            && (heard.Heard? && heard.notice.MessageNotice? ==> op == "SEND_MESSAGE")
            && (heard.Heard? && heard.notice.AckNotice? ==> op == "SEND_MESS_ACK")
            && (heard == Heard(EndNotice, HearText(stream).rest) <==> op == "END_LISTEN_THREAD")
            && (heard == Heard(InvalidNotice, HearText(stream).rest)
                <==> op !in ["SEND_MESSAGE", "SEND_MESS_ACK", "END_LISTEN_THREAD"])
  {
    var op, rest := HearText(stream).field, HearText(stream).rest;
    if op != SEND_MESSAGE && op != SEND_MESS_ACK {
      assert HearMany(rest, 0) == TakenAll([], rest);
    }
  }

  /** A delivered message reaches the listening client whole: sender, content
      and an identifier that reads back as the number the server printed. */
  lemma MessageArrives(sender: string, id: MsgId, content: string, rest: string)
    requires NoNul(sender) && NoNul(content)
    ensures var heard := Listen(EncodeMessage(sender, id, content) + rest);
            && heard.Heard? && heard.rest == rest && heard.notice.MessageNotice?
            && heard.notice.sender == sender && heard.notice.content == content
            && StrToUint(heard.notice.id) == Some(id)
  {
    PrintThenRead(id);
    PrintDigits(id);
    var args := [sender, Print(id), content];
    var tail := Framed(args) + rest;
    assert EncodeMessage(sender, id, content) + rest == SEND_MESSAGE + "\0" + tail;
    HearField(SEND_MESSAGE, tail);
    HearFields(args, rest);
  }

  lemma AckArrives(id: MsgId, rest: string)
    ensures var heard := Listen(EncodeAck(id) + rest);
            && heard.Heard? && heard.rest == rest && heard.notice.AckNotice?
            && StrToUint(heard.notice.id) == Some(id)
  {
    PrintThenRead(id);
    PrintDigits(id);
    var args := [Print(id)];
    var tail := Framed(args) + rest;
    assert EncodeAck(id) + rest == SEND_MESS_ACK + "\0" + tail;
    HearField(SEND_MESS_ACK, tail);
    HearFields(args, rest);
  }
}

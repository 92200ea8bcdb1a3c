/** The services of src/services.c as whole steps on the accounts and on a
    history of everything the server did. Network outcomes, the order in which
    a mailbox directory is listed, and the values of variables the code reads
    before setting them are part of a request. */
module Protocol {
  import opened Types
  import opened Decimal

  datatype Letter = Letter(to: string, msg: Message)

  datatype Service = REGISTER | UNREGISTER | CONNECT | DISCONNECT

  datatype Event =
    | Replied(service: Service, user: string, code: int)
    | Erased(user: string, mail: Mailbox)                  // a table removed, with what was pending in it
    | Refused(sender: string, recipient: string, code: int)
    | Assigned(user: string)                               // the recipient's next identifier was taken
    | Delivered(letter: Letter)                            // clt_send_message returned SRV_SUCCESS
    | Undelivered(letter: Letter)                          // it did not, and the recipient is offline
    | Stale(letter: Letter)                                // delivered, but the unset reply code read as an error
    | Stored(letter: Letter)                               // filed in the mailbox
    | Answered(letter: Letter, code: int)                  // the first reply to SEND
    | AckTried(letter: Letter)                             // clt_send_mess_ack towards the sender

  datatype History = Start | After(past: History, event: Event)

  datatype World = World(store: Store, log: History)

  function Note(w: World, e: Event): World { w.(log := After(w.log, e)) }

  /** One turn of the mailbox loop: the message listed first, and whether it was delivered. */
  datatype Pick = Pick(id: MsgId, sent: bool)

  datatype Request =
    | Register(user: string, ip: int, port: int)           // ip and port are left uninitialised
    | Unregister(user: string)
    | Connect(user: string, portText: string, peer: Option<int>, picks: seq<Pick>)
    | Disconnect(user: string)
    | Send(sender: string, recipient: string, content: string, reached: bool, flag: int)

  const START := World(map[], Start)

  /** The turns the mailbox loop can take: any order, until the mailbox is
      empty or one delivery fails. */
  ghost predicate ValidDrain(mail: Mailbox, picks: seq<Pick>)
    decreases |picks|
  {
    if picks == [] then mail == map[] else
      && picks[0].id in mail
      && if picks[0].sent then ValidDrain(mail - {picks[0].id}, picks[1..]) else |picks| == 1
  }

  ghost predicate Enabled(w: World, r: Request) {
    r.Connect? && r.user in w.store ==> ValidDrain(w.store[r.user].mail, r.picks)
  }

  function Offline(s: Store, u: string): Store
    requires u in s
  {
    SetData(s, u, s[u].data.(status := Disconnected))
  }

  function DoRegister(w: World, u: string, ip: int, port: int): World {
    if u in w.store then Note(w, Replied(REGISTER, u, SRV_ERR_REG_USR_ALREADY_REG)) else
      var data := UserData(Disconnected, ip, port, 0);
      Note(World(w.store[u := Account(data, map[])], w.log), Replied(REGISTER, u, SRV_SUCCESS))
  }

  function DoUnregister(w: World, u: string): World {
    if u !in w.store then Note(w, Replied(UNREGISTER, u, SRV_ERR_UNREG_USR_NOT_EXISTS)) else
      var w1 := Note(World(w.store - {u}, w.log), Erased(u, w.store[u].mail));
      Note(w1, Replied(UNREGISTER, u, SRV_SUCCESS))
  }

  function DoDisconnect(w: World, u: string): World {
    if u !in w.store then Note(w, Replied(DISCONNECT, u, SRV_ERR_DCN_USR_NOT_EXISTS))
    else if w.store[u].data.status == Disconnected then Note(w, Replied(DISCONNECT, u, SRV_ERR_DCN_USR_NOT_CN))
    else
      var data := UserData(Disconnected, 0, 0, w.store[u].data.lastMsgId);
      Note(World(SetData(w.store, u, data), w.log), Replied(DISCONNECT, u, SRV_SUCCESS))
  }

  function ConnectCode(s: Store, u: string, portText: string, peer: Option<int>): int {
    if u !in s then SRV_ERR_CN_USR_NOT_EXISTS
    else if s[u].data.status == Connected then SRV_ERR_CN_USR_ALREADY_CN
    else if StrToPort(portText).None? || peer.None? then SRV_ERR_CN_ANY
    else SRV_SUCCESS
  }

  /** CONNECT up to and including its reply. */
  function DoGreet(w: World, u: string, portText: string, peer: Option<int>): World {
    var code := ConnectCode(w.store, u, portText, peer);
    if code != SRV_SUCCESS then Note(w, Replied(CONNECT, u, code)) else
      var data := UserData(Connected, peer.value, StrToPort(portText).value, w.store[u].data.lastMsgId);
      Note(World(SetData(w.store, u, data), w.log), Replied(CONNECT, u, SRV_SUCCESS))
  }

  /** The mailbox loop of `aux_connect_send_pend_msgs`. */
  function DoDrain(w: World, u: string, picks: seq<Pick>): World
    requires u in w.store && ValidDrain(w.store[u].mail, picks)
    decreases |picks|
  {
    if picks == [] then w else
      var id := picks[0].id;
      var letter := Letter(u, w.store[u].mail[id]);
      if picks[0].sent then
        var w1 := World(SetMail(w.store, u, w.store[u].mail - {id}), After(w.log, Delivered(letter)));
        DoDrain(Note(w1, AckTried(letter)), u, picks[1..])
      else
        World(Offline(w.store, u), After(w.log, Undelivered(letter)))
  }

  /** The whole of CONNECT: whatever the reply was, the mailbox is drained if
      the user exists. */
  function DoConnect(w: World, u: string, portText: string, peer: Option<int>, picks: seq<Pick>): World
    requires u in w.store ==> ValidDrain(w.store[u].mail, picks)
  {
    var w1 := DoGreet(w, u, portText, peer);
    if u in w.store then DoDrain(w1, u, picks) else w1
  }

  /** The letter a SEND makes of the recipient's next identifier. */
  function NewLetter(s: Store, sender: string, recipient: string, content: string): Letter
    requires recipient in s
  {
    Letter(recipient, Message(sender, NextId(s[recipient].data.lastMsgId), content))
  }

  /** `aux_send_init` and `aux_send_msg_pass`: the identifier is taken, and a
      recipient who is online is tried at once. */
  function DoPass(w: World, l: Letter, reached: bool): World
    requires l.to in w.store
  {
    var taken := w.store[l.to].data.(lastMsgId := l.msg.id);
    var w1 := Note(World(SetData(w.store, l.to, taken), w.log), Assigned(l.to));
    if taken.status == Disconnected then w1
    else if reached then Note(w1, Delivered(l))
    else World(Offline(w1.store, l.to), After(w1.log, Undelivered(l)))
  }

  /** The rest of `srv_send`: store when the recipient is offline or the unset
      reply code reads as an error, answer, acknowledge. */
  function DoSettle(w: World, l: Letter, flag: int): World
    requires l.to in w.store
  {
    var online := w.store[l.to].data.status == Connected;
    var w1 := if online && flag != SRV_SUCCESS then Note(w, Stale(l)) else w;
    if online && flag == SRV_SUCCESS then Note(Note(w1, Answered(l, SRV_SUCCESS)), AckTried(l)) else
      var mail := w1.store[l.to].mail;
      var w2 := if l.msg.id in mail then Note(w1, Answered(l, SRV_ERR_SEND_ANY))
                else Note(Note(World(SetMail(w1.store, l.to, mail[l.msg.id := l.msg]), w1.log), Stored(l)),
                          Answered(l, SRV_SUCCESS));
      if online then Note(w2, AckTried(l)) else w2
  }

  function DoSend(w: World, sender: string, recipient: string, content: string, reached: bool, flag: int): World {
    if sender !in w.store || recipient !in w.store then
      Note(w, Refused(sender, recipient, SRV_ERR_SEND_USR_NOT_EXISTS))
    else
      var l := NewLetter(w.store, sender, recipient, content);
      DoSettle(DoPass(w, l, reached), l, flag)
  }

  function Exec(w: World, r: Request): World
    requires Enabled(w, r)
  {
    match r
    case Register(u, ip, port) => DoRegister(w, u, ip, port)
    case Unregister(u) => DoUnregister(w, u)
    case Connect(u, portText, peer, picks) => DoConnect(w, u, portText, peer, picks)
    case Disconnect(u) => DoDisconnect(w, u)
    case Send(sender, recipient, content, reached, flag) => DoSend(w, sender, recipient, content, reached, flag)
  }

  ghost predicate Step(w: World, r: Request, w': World) { Enabled(w, r) && w' == Exec(w, r) }

  function Last(rs: seq<Request>): Request
    requires rs != []
  {
    rs[|rs| - 1]
  }

  function Front(rs: seq<Request>): seq<Request>
    requires rs != []
  {
    rs[..|rs| - 1]
  }

  /** The worlds that serial runs from an empty database reach. */
  ghost predicate Reaches(rs: seq<Request>, w: World) {
    if rs == [] then w == START else exists before :: Reaches(Front(rs), before) && Step(before, Last(rs), w)
  }

  // Reading the history

  ghost predicate Prefix(p: History, h: History) { p == h || (h.After? && Prefix(p, h.past)) }

  ghost predicate Happened(h: History, e: Event) { h.After? && (h.event == e || Happened(h.past, e)) }

  /** How often a letter met each fate. */
  datatype Tally = Tally(delivered: nat, discarded: nat, accepted: nat, acked: nat, stale: nat)

  function Count(t: Tally, e: Event, l: Letter): Tally {
    match e
    case Delivered(k) => if k == l then t.(delivered := t.delivered + 1) else t
    case Erased(u, mail) =>
      if u == l.to && l.msg.id in mail && mail[l.msg.id] == l.msg then t.(discarded := t.discarded + 1) else t
    case Answered(k, code) =>
      if k == l && code == SRV_SUCCESS then t.(accepted := t.accepted + 1) else t
    case AckTried(k) => if k == l then t.(acked := t.acked + 1) else t
    case Stale(k) => if k == l then t.(stale := t.stale + 1) else t
    case _ => t
  }

  function TallyOf(h: History, l: Letter): Tally {
    match h
    case Start => Tally(0, 0, 0, 0, 0)
    case After(past, e) => Count(TallyOf(past, l), e, l)
  }

  function Pending(s: Store, l: Letter): nat {
    if l.to in s && l.msg.id in s[l.to].mail && s[l.to].mail[l.msg.id] == l.msg then 1 else 0
  }

  /** A user's standing as the history tells it: registered, online, and how
      many identifiers were taken since registration. */
  datatype Standing = Standing(member: bool, online: bool, taken: nat)

  function Move(s: Standing, e: Event, u: string): Standing {
    match e
    case Replied(service, user, code) =>
      if user != u || code != SRV_SUCCESS then s else (
        match service
        case REGISTER => Standing(true, false, 0)
        case UNREGISTER => Standing(false, false, 0)
        case CONNECT => s.(online := true)
        case DISCONNECT => s.(online := false))
    case Undelivered(l) => if l.to == u then s.(online := false) else s
    case Assigned(user) => if user == u then s.(taken := s.taken + 1) else s
    case _ => s
  }

  function StandingOf(h: History, u: string): Standing {
    match h
    case Start => Standing(false, false, 0)
    case After(past, e) => Move(StandingOf(past, u), e, u)
  }

  /** How often any identifier was taken for `u`, over all registrations. */
  function AllTakings(h: History, u: string): nat {
    match h
    case Start => 0
    case After(past, e) => AllTakings(past, u) + if e == Assigned(u) then 1 else 0
  }

  /** The number of identifiers taken when the letter now filed under `id` was stored. */
  function FiledAt(h: History, u: string, id: MsgId): nat {
    match h
    case Start => 0
    case After(past, e) =>
      if e.Stored? && e.letter.to == u && e.letter.msg.id == id then StandingOf(past, u).taken
      else FiledAt(past, u, id)
  }
}

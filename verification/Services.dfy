/** The services of src/services.c, statement by statement, over the database.
    Each one does to the accounts and the history what the corresponding
    whole step of `Protocol` does, for some outcome of the network and some
    value of every variable the code reads before setting it. */
module Services {
  import opened Types
  import opened FileTree
  import opened Paths
  import opened Decimal
  import opened Database
  import P = Protocol
  import opened Accounting
  import Wire

  class Server {
    const db: Dbms
    ghost var log: P.History

    /** The database is sound, and pending messages come from senders the
        server once knew. */
    ghost predicate Valid()
      reads this, db, db.fs
    {
      db.Valid() && KnownSenders(db.store)
    }

    ghost function World(): P.World
      reads this, db
    {
      P.World(db.store, log)
    }

    constructor (db: Dbms)
      requires db.Valid() && KnownSenders(db.store)
      ensures Valid() && this.db == db && World() == P.World(db.store, P.Start)
    {
      this.db := db;
      log := P.Start;
    }

    /** `srv_register`. `ip` and `port` are what the address fields of the new
        entry, which are never set, happen to hold. */
    method Register(username: string, ip: int, port: int) returns (code: int)
      requires Valid() && Nameable(username)
      modifies this`log, db`store, db.fs`tree
      ensures Valid() && World() == P.Exec(old(World()), P.Register(username, ip, port))
      ensures log == P.After(old(log), P.Replied(P.REGISTER, username, code))
    {
      var entry := Entry(username, UserPart(UserData(Disconnected, ip, port, 0)));
      var created := db.CreateTable(entry);
      code := if created == DBMS_ERR_EXISTS then SRV_ERR_REG_USR_ALREADY_REG else SRV_SUCCESS;
      log := P.After(log, P.Replied(P.REGISTER, username, code));
    }

    /** `srv_unregister`. */
    method Unregister(username: string) returns (code: int)
      requires Valid() && Nameable(username)
      modifies this`log, db`store, db.fs`tree
      ensures Valid() && World() == P.Exec(old(World()), P.Unregister(username))
      ensures log.event == P.Replied(P.UNREGISTER, username, code)
    {
      var userExists := db.UserExists(username);
      if userExists == TRUE {
        ghost var erased := P.Erased(username, db.store[username].mail);
        var deleted := db.DeleteTable(username);
        code := if deleted < 0 then SRV_ERR_UNREG_ANY else SRV_SUCCESS;
        log := P.After(log, erased);
      } else if userExists == FALSE {
        code := SRV_ERR_UNREG_USR_NOT_EXISTS;
      } else {
        code := SRV_ERR_UNREG_ANY;
      }
      log := P.After(log, P.Replied(P.UNREGISTER, username, code));
    }

    /** `srv_disconnect`. */
    method Disconnect(username: string) returns (code: int)
      requires Valid() && Nameable(username)
      modifies this`log, db`store, db.fs`tree
      ensures Valid() && World() == P.Exec(old(World()), P.Disconnect(username))
      ensures log == P.After(old(log), P.Replied(P.DISCONNECT, username, code))
      ensures code == SRV_SUCCESS ==>
                && username in db.store
                && var d := db.store[username].data; d.status == Disconnected && d.ip == 0 && d.port == 0
    {
      var unset: UserData := *;
      var io, entry := db.IoOperation(Entry(username, UserPart(unset)), READ);
      if io == DBMS_ERR_NOT_EXISTS {
        code := SRV_ERR_DCN_USR_NOT_EXISTS;
      } else if io < 0 {
        code := SRV_ERR_DCN_ANY;
      } else if entry.part.user.status == Disconnected {
        code := SRV_ERR_DCN_USR_NOT_CN;
      } else {
        var data := entry.part.user.(status := Disconnected, ip := 0, port := 0);
        entry := Entry(username, UserPart(data));
        io, entry := db.IoOperation(entry, MODIFY);
        code := if io == DBMS_ERR_NOT_EXISTS then SRV_ERR_DCN_USR_NOT_EXISTS
                else if io < 0 then SRV_ERR_DCN_ANY else SRV_SUCCESS;
      }
      log := P.After(log, P.Replied(P.DISCONNECT, username, code));
    }

    /** The first part of `srv_connect`, through the reply. `peer` is what
        `getpeername` yields. */
    method Greet(username: string, portText: string, peer: Option<int>) returns (code: int)
      requires Valid() && Nameable(username)
      modifies this`log, db`store, db.fs`tree
      ensures Valid()
      ensures World() == P.DoGreet(old(World()), username, portText, peer)
      ensures log == P.After(old(log), P.Replied(P.CONNECT, username, code))
    {
      var unset: UserData := *;
      var io, entry := db.IoOperation(Entry(username, UserPart(unset)), READ);
      if io == DBMS_ERR_NOT_EXISTS {
        code := SRV_ERR_CN_USR_NOT_EXISTS;
      } else if io < 0 {
        code := SRV_ERR_CN_ANY;
      } else if entry.part.user.status == Connected {
        code := SRV_ERR_CN_USR_ALREADY_CN;
      } else {
        code := SRV_SUCCESS;
        var port := StrToPort(portText);
        if port.None? || peer.None? {
          code := SRV_ERR_CN_ANY;
        }
        if code != SRV_ERR_CN_ANY {
          var data := entry.part.user.(status := Connected, port := port.value, ip := peer.value);
          entry := Entry(username, UserPart(data));
          io, entry := db.IoOperation(entry, MODIFY);
          code := if io == DBMS_ERR_NOT_EXISTS then SRV_ERR_CN_USR_NOT_EXISTS
                  else if io < 0 then SRV_ERR_CN_ANY else SRV_SUCCESS;
        }
      }
      log := P.After(log, P.Replied(P.CONNECT, username, code));
    }

    /** `srv_connect`: greet, then drain the mailbox whatever the reply was.
        `reached(k)` says whether the k-th delivery attempt gets through. */
    method Connect(username: string, portText: string, peer: Option<int>, reached: nat -> bool)
      returns (code: int, ghost picks: seq<P.Pick>)
      requires Valid() && Nameable(username)
      modifies this`log, db`store, db.fs`tree
      ensures var r := P.Connect(username, portText, peer, picks);
              Valid() && P.Enabled(old(World()), r) && World() == P.Exec(old(World()), r)
      ensures SentAs(picks, reached)
      ensures code == P.ConnectCode(old(db.store), username, portText, peer)
      ensures code == SRV_SUCCESS ==>
                && username in db.store && StrToPort(portText).Some? && peer.Some?
                && var d := db.store[username].data;
                && d.ip == peer.value && d.port == StrToPort(portText).value
                && forall p: nat :: p < 65536 && portText == Print(p) ==> d.port == p
    {
      code := Greet(username, portText, peer);
      var drained;
      ghost var w := World();
      drained, picks := SendPending(username, reached);
      if username in w.store { DrainOutcome(w, username, picks); }
      forall p: nat | p < 65536 && portText == Print(p) ensures StrToPort(portText) == Some(p) {
        PrintedPortRead(p);
      }
    }

    /** `clt_send_message`: the user's entry is read again, and then the
        message gets through if the connection and the four sends succeed
        (`reached`). */
    method CltSendMessage(msg: Message, entry: Entry, reached: bool) returns (result: int, filled: Entry)
      requires Valid() && Nameable(entry.username) && entry.part.UserPart?
      modifies this`log, db`store, db.fs`tree
      ensures Valid() && db.store == old(db.store)
      ensures var u := entry.username;
              filled == if u in db.store then Entry(u, UserPart(db.store[u].data)) else entry
      ensures result == if entry.username in db.store && reached then SRV_SUCCESS else GEN_ERR_ANY
      ensures var l := P.Letter(entry.username, msg);
              log == if result == SRV_SUCCESS then P.After(old(log), P.Delivered(l)) else old(log)
    {
      var io;
      io, filled := db.IoOperation(entry, READ);
      if io < 0 {
        return GEN_ERR_ANY, filled;
      }
      if !reached {
        return GEN_ERR_ANY, filled;
      }
      log := P.After(log, P.Delivered(P.Letter(entry.username, msg)));
      return SRV_SUCCESS, filled;
    }

    /** `clt_send_mess_ack` towards the sender of `letter`: the sender's entry
        is read, and then the connection is made or not. No caller looks at the
        result, and the outcome changes nothing the server keeps. */
    method CltSendMessAck(id: MsgId, sender: Entry, reached: bool, ghost letter: P.Letter) returns (result: int)
      requires Valid() && Nameable(sender.username) && sender.part.UserPart?
      requires letter.msg.id == id && letter.msg.sender == sender.username
      modifies this`log, db`store, db.fs`tree
      ensures Valid() && db.store == old(db.store) && log == P.After(old(log), P.AckTried(letter))
      ensures result == if sender.username in db.store && reached then SRV_SUCCESS else GEN_ERR_ANY
    {
      log := P.After(log, P.AckTried(letter));
      var io, filled := db.IoOperation(sender, READ);
      if io < 0 || !reached {
        return GEN_ERR_ANY;
      }
      return SRV_SUCCESS;
    }

    /** The body of the mailbox loop: send, then delete and acknowledge, or
        else take the recipient offline. */
    method SendOnePending(pending: Entry, recipient: Entry, reached: bool) returns (delivered: int, recipient': Entry)
      requires Valid() && Nameable(pending.username) && IsPending(db.store, pending)
      requires recipient == Entry(pending.username, UserPart(db.store[pending.username].data))
      modifies this`log, db`store, db.fs`tree
      ensures Valid() && (delivered == SRV_SUCCESS <==> reached)
      ensures var u, msg, w := pending.username, pending.part.msg, old(World());
              var l := P.Letter(u, msg);
              World() == if delivered == SRV_SUCCESS
                         then P.World(SetMail(w.store, u, w.store[u].mail - {msg.id}),
                                      P.After(P.After(w.log, P.Delivered(l)), P.AckTried(l)))
                         else P.World(P.Offline(w.store, u), P.After(w.log, P.Undelivered(l)))
      ensures recipient' == Entry(pending.username, UserPart(db.store[pending.username].data))
    {
      var u, msg := pending.username, pending.part.msg;
      var io, ignored;
      ghost var letter := P.Letter(u, msg);
      delivered, recipient' := CltSendMessage(msg, recipient, reached);
      if delivered == SRV_SUCCESS {
        io, ignored := db.IoOperation(pending, DELETE);
        var unset: UserData, acked: bool := *, *;
        io := CltSendMessAck(msg.id, Entry(msg.sender, UserPart(unset)), acked, letter);
      } else {
        recipient' := Entry(u, UserPart(recipient'.part.user.(status := Disconnected)));
        io, ignored := db.IoOperation(recipient', MODIFY);
        log := P.After(log, P.Undelivered(letter));
      }
    }

    /** `aux_connect_send_pend_msgs`. */
    method SendPending(username: string, reached: nat -> bool) returns (result: int, ghost picks: seq<P.Pick>)
      requires Valid() && Nameable(username)
      modifies this`log, db`store, db.fs`tree
      ensures Valid() && SentAs(picks, reached)
      ensures username !in old(db.store) ==> result == DBMS_ERR_ANY && World() == old(World()) && picks == []
      ensures username in old(db.store) ==>
                && P.ValidDrain(old(db.store)[username].mail, picks)
                && World() == P.DoDrain(old(World()), username, picks)
                && result == if picks == [] || picks[|picks| - 1].sent then SRV_SUCCESS else SRV_ERR_SEND_ANY
    {
      var unsetData: UserData := *;
      var unsetMsg: Message := *;
      picks := [];
      var pending := Entry(username, MessagePart(unsetMsg));
      var io, recipient := db.IoOperation(Entry(username, UserPart(unsetData)), READ);
      if io < 0 {
        return DBMS_ERR_ANY, [];
      }

      result, picks := SendAllPending(pending, recipient, reached);
    }

    /** What the mailbox loop has achieved since `w0`: the turns `picks` lead
        to the present, and the entry read next is a pending one, if any is. */
    ghost predicate Draining(w0: P.World, u: string, picks: seq<P.Pick>, found: int, pending: Entry, recipient: Entry)
      reads this, db
    {
      && u in db.store && DrainsOn(w0, u, picks, World())
      && recipient == Entry(u, UserPart(db.store[u].data))
      && pending.username == u && pending.part.MessagePart?
      && (if found == DBMS_SUCCESS then IsPending(db.store, pending) else db.store[u].mail == map[])
    }

    /** One turn of the mailbox loop and the look for the next message. */
    method TakeTurn(pending: Entry, recipient: Entry, reached: bool, ghost w0: P.World, ghost picks: seq<P.Pick>)
      returns (delivered: int, found: int, pending': Entry, recipient': Entry)
      requires Valid() && Nameable(pending.username)
      requires Draining(w0, pending.username, picks, DBMS_SUCCESS, pending, recipient)
      modifies this`log, db`store, db.fs`tree
      ensures Valid() && (delivered == SRV_SUCCESS <==> reached)
      ensures var u, id := pending.username, pending.part.msg.id;
              if delivered == SRV_SUCCESS then
                && Draining(w0, u, picks + [P.Pick(id, true)], found, pending', recipient')
                && |db.store[u].mail| < |old(db.store)[u].mail|
              else
                && P.ValidDrain(w0.store[u].mail, picks + [P.Pick(id, false)])
                && World() == P.DoDrain(w0, u, picks + [P.Pick(id, false)])
    {
      var u := pending.username;
      ghost var w, id := World(), pending.part.msg.id;
      OneLess(db.store[u].mail, id);
      delivered, recipient' := SendOnePending(pending, recipient, reached);
      if delivered != SRV_SUCCESS {
        DrainFails(w0, u, picks, w, World(), id);
        found, pending' := DBMS_ERR_ANY, pending;
        return;
      }
      DrainGoesOn(w0, u, picks, w, World(), id);
      found, pending' := db.GetPendingMessage(pending);
    }

    /** The mailbox loop itself. */
    method SendAllPending(first: Entry, reader: Entry, reached: nat -> bool)
      returns (result: int, ghost picks: seq<P.Pick>)
      requires Valid() && Nameable(first.username) && first.part.MessagePart? && first.username in db.store
      requires reader == Entry(first.username, UserPart(db.store[first.username].data))
      modifies this`log, db`store, db.fs`tree
      ensures Valid() && SentAs(picks, reached)
      ensures P.ValidDrain(old(db.store)[first.username].mail, picks)
      ensures World() == P.DoDrain(old(World()), first.username, picks)
      ensures result == if picks == [] || picks[|picks| - 1].sent then SRV_SUCCESS else SRV_ERR_SEND_ANY
    {
      var u, recipient := first.username, reader;
      ghost var w0 := World();
      DrainBegins(w0, u);
      picks := [];
      var turn: nat := 0;
      var found, pending := db.GetPendingMessage(first);
      while found == DBMS_SUCCESS
        invariant Valid() && Draining(w0, u, picks, found, pending, recipient)
        invariant picks == [] || picks[|picks| - 1].sent
        invariant turn == |picks| && SentAs(picks, reached)
        decreases |db.store[u].mail|, found
      {
        ghost var id := pending.part.msg.id;
        var delivered;
        delivered, found, pending, recipient := TakeTurn(pending, recipient, reached(turn), w0, picks);
        OneMorePick(picks, P.Pick(id, delivered == SRV_SUCCESS), reached);
        picks := picks + [P.Pick(id, delivered == SRV_SUCCESS)];
        turn := turn + 1;
        if delivered != SRV_SUCCESS {
          return SRV_ERR_SEND_ANY, picks;
        }
      }
      DrainEnds(w0, u, picks, World());
      return SRV_SUCCESS, picks;
    }

    /** `aux_send_init`. */
    method SendInit(sender: string, recipient: string) returns (code: int, entry: Entry)
      requires Valid() && Nameable(sender) && Nameable(recipient)
      modifies this`log, db`store, db.fs`tree
      ensures Valid()
      ensures sender in old(db.store) && recipient in old(db.store) ==>
                var data := old(db.store)[recipient].data;
                var taken := data.(lastMsgId := NextId(data.lastMsgId));
                && code == SRV_SUCCESS
                && entry == Entry(recipient, UserPart(taken))
                && World() == P.World(SetData(old(db.store), recipient, taken),
                                      P.After(old(log), P.Assigned(recipient)))
      ensures sender !in old(db.store) || recipient !in old(db.store) ==>
                code == SRV_ERR_SEND_USR_NOT_EXISTS && World() == old(World())
    {
      var unset: UserData := *;
      entry := Entry(recipient, UserPart(unset));
      var senderExists := db.UserExists(sender);
      var recipientExists := db.UserExists(recipient);
      if senderExists == FALSE || recipientExists == FALSE {
        code := SRV_ERR_SEND_USR_NOT_EXISTS;
      } else if senderExists < 0 || recipientExists < 0 {
        code := SRV_ERR_SEND_ANY;
      } else {
        code := SRV_SUCCESS;
        var io;
        io, entry := db.IoOperation(entry, READ);
        if io < 0 {
          code := SRV_ERR_SEND_ANY;
        } else {
          var data := entry.part.user;
          entry := Entry(recipient, UserPart(data.(lastMsgId := NextId(data.lastMsgId))));
          io, entry := db.IoOperation(entry, MODIFY);
          log := P.After(log, P.Assigned(recipient));
          if io < 0 {
            code := SRV_ERR_SEND_ANY;
          }
        }
      }
    }

    /** `aux_send_msg_pass`. */
    method SendMsgPass(sender: string, content: string, code: int, recipient: Entry, reached: bool)
      returns (code': int, recipient': Entry, msgEntry: Entry)
      requires Valid() && Nameable(recipient.username) && recipient.username in db.store
      requires recipient == Entry(recipient.username, UserPart(db.store[recipient.username].data))
      modifies this`log, db`store, db.fs`tree
      ensures Valid() && code' == code && recipient.username in db.store
      ensures recipient' == Entry(recipient.username, UserPart(db.store[recipient.username].data))
      ensures var msg := Message(sender, recipient.part.user.lastMsgId, content);
              msgEntry == Entry(recipient.username, MessagePart(msg))
      ensures var l := P.Letter(recipient.username, msgEntry.part.msg);
              World() == if recipient.part.user.status == Disconnected then old(World())
                         else if reached then P.Note(old(World()), P.Delivered(l))
                         else P.World(P.Offline(old(db.store), l.to), P.After(old(log), P.Undelivered(l)))
    {
      code', recipient' := code, recipient;
      var msg := Message(sender, recipient.part.user.lastMsgId, content);
      msgEntry := Entry(recipient.username, MessagePart(msg));
      if recipient'.part.user.status == Connected {
        var sent;
        sent, recipient' := CltSendMessage(msg, recipient', reached);
        if sent != SRV_SUCCESS {
          recipient' := Entry(recipient.username, UserPart(recipient'.part.user.(status := Disconnected)));
          var io;
          io, recipient' := db.IoOperation(recipient', MODIFY);
          log := P.After(log, P.Undelivered(P.Letter(recipient.username, msg)));
          if io < 0 {
            code' := SRV_ERR_SEND_ANY;
          }
        }
      }
    }

    /** The second half of `srv_send`: store if the recipient is offline or
        `flag` is not success, answer, acknowledge if the recipient is online. */
    method SendSettle(code: int, recipient: Entry, msgEntry: Entry, flag: int) returns (code': int)
      requires Valid() && Nameable(recipient.username) && recipient.username in db.store && code == SRV_SUCCESS
      requires recipient == Entry(recipient.username, UserPart(db.store[recipient.username].data))
      requires msgEntry.username == recipient.username && msgEntry.part.MessagePart?
      requires msgEntry.part.msg.id == recipient.part.user.lastMsgId && Nameable(msgEntry.part.msg.sender)
      modifies this`log, db`store, db.fs`tree
      ensures Valid() && Answers(log, code')
      ensures World() == P.DoSettle(old(World()), P.Letter(recipient.username, msgEntry.part.msg), flag)
    {
      code' := code;
      ghost var letter := P.Letter(recipient.username, msgEntry.part.msg);
      var status := recipient.part.user.status;
      if status == Connected && flag != SRV_SUCCESS {
        log := P.After(log, P.Stale(letter));
      }
      if status == Disconnected || flag != SRV_SUCCESS {
        var io, ignored := db.IoOperation(msgEntry, CREATE);
        if io < 0 {
          code' := SRV_ERR_SEND_ANY;
        } else {
          log := P.After(log, P.Stored(letter));
        }
      }
      log := P.After(log, P.Answered(letter, code'));
      if status == Connected {
        var unset: UserData, acked: bool := *, *;
        var result := CltSendMessAck(recipient.part.user.lastMsgId, Entry(msgEntry.part.msg.sender, UserPart(unset)),
                                     acked, letter);
      }
    }

    /** `srv_send`. `reached` says whether a delivery attempt gets through,
        `flag` is what `send_msg_reply.server_error_code`, which no statement
        sets, happens to hold. */
    method Send(sender: string, recipient: string, content: string, reached: bool, flag: int) returns (code: int)
      requires Valid() && Nameable(sender) && Nameable(recipient)
      modifies this`log, db`store, db.fs`tree
      ensures Valid() && Answers(log, code)
      ensures World() == P.Exec(old(World()), P.Send(sender, recipient, content, reached, flag))
    {
      ghost var w := World();
      var recipientEntry, msgEntry;
      code, recipientEntry := SendInit(sender, recipient);
      if code != SRV_SUCCESS {
        log := P.After(log, P.Refused(sender, recipient, code));
        return;
      }
      code, recipientEntry, msgEntry := SendMsgPass(sender, content, code, recipientEntry, reached);
      assert World() == P.DoPass(w, P.Letter(recipient, msgEntry.part.msg), reached);
      code := SendSettle(code, recipientEntry, msgEntry, flag);
    }

    /** The dispatch of `service_thread` on a received request. A server that
        has served a run of requests from an empty database has, after one
        more, served a longer run, whose last step is the one the request asks
        for under the circumstances it meets. */
    method Serve(request: Wire.Request, met: Met, ghost rs: seq<P.Request>) returns (ghost rs': seq<P.Request>)
      requires Valid() && NamesUsable(request)
      requires P.Reaches(rs, World())
      modifies this`log, db`store, db.fs`tree
      ensures Valid() && P.Reaches(rs', World())
      ensures request.OtherRequest? ==> rs' == rs && World() == old(World())
      ensures !request.OtherRequest? ==> |rs'| == |rs| + 1 && rs <= rs' && Asks(request, met, rs'[|rs|])
    {
      ghost var w := World();
      var code;
      ghost var r, picks;
      match request {
        case RegisterRequest(u) =>
          code := Register(u, met.ip, met.port);
          r := P.Register(u, met.ip, met.port);
        case UnregisterRequest(u) =>
          code := Unregister(u);
          r := P.Unregister(u);
        case ConnectRequest(u, portText) =>
          code, picks := Connect(u, portText, met.peer, met.reached);
          r := P.Connect(u, portText, met.peer, picks);
        case DisconnectRequest(u) =>
          code := Disconnect(u);
          r := P.Disconnect(u);
        case SendRequest(sender, recipient, content) =>
          code := Send(sender, recipient, content, met.reached(0), met.flag);
          r := P.Send(sender, recipient, content, met.reached(0), met.flag);
        case OtherRequest(_) => return rs;
      }
      rs' := rs + [r];
      OneMore(rs, w, r, World());
    }
  }

  /** What a request meets: the values of members that are never set, the peer
      `getpeername` yields, and which delivery attempts get through. */
  datatype Met = Met(ip: int, port: int, peer: Option<int>, reached: nat -> bool, flag: int)

  ghost predicate NamesUsable(request: Wire.Request) {
    match request
    case SendRequest(sender, recipient, _) => Nameable(sender) && Nameable(recipient)
    case OtherRequest(_) => true
    case _ => Nameable(request.username)
  }

  /** The step `r` is what the wire request asks for under these circumstances. */
  ghost predicate Asks(request: Wire.Request, met: Met, r: P.Request) {
    match request
    case RegisterRequest(u) => r == P.Register(u, met.ip, met.port)
    case UnregisterRequest(u) => r == P.Unregister(u)
    case ConnectRequest(u, portText) =>
      && r.Connect? && r.user == u && r.portText == portText && r.peer == met.peer
      && SentAs(r.picks, met.reached)
    case DisconnectRequest(u) => r == P.Disconnect(u)
    case SendRequest(sender, recipient, content) =>
      r == P.Send(sender, recipient, content, met.reached(0), met.flag)
    case OtherRequest(_) => false
  }

  /** `code` is what the sender of the last SEND was told. */
  ghost predicate Answers(log: P.History, code: int) {
    log.After? &&
    match log.event
    case Refused(_, _, c) => c == code
    case Answered(_, c) => c == code
    case AckTried(_) => log.past.After? && log.past.event.Answered? && log.past.event.code == code
    case _ => false
  }

  lemma OneMore(rs: seq<P.Request>, w: P.World, r: P.Request, w': P.World)
    requires P.Reaches(rs, w) && P.Step(w, r, w')
    ensures P.Reaches(rs + [r], w')
  {
    assert P.Front(rs + [r]) == rs && P.Last(rs + [r]) == r;
  }

  ghost predicate IsPending(s: Store, e: Entry) {
    && e.username in s && e.part.MessagePart?
    && e.part.msg.id in s[e.username].mail && e.part.msg == s[e.username].mail[e.part.msg.id]
  }

  ghost predicate KnownSenders(s: Store) {
    forall u, i :: u in s && i in s[u].mail ==> Nameable(s[u].mail[i].sender)
  }

  /** Each turn got through or not as `reached` says. */
  ghost predicate SentAs(picks: seq<P.Pick>, reached: nat -> bool) {
    forall k :: 0 <= k < |picks| ==> picks[k].sent == reached(k)
  }

  lemma OneMorePick(picks: seq<P.Pick>, pick: P.Pick, reached: nat -> bool)
    requires SentAs(picks, reached) && pick.sent == reached(|picks|)
    ensures SentAs(picks + [pick], reached)
  {
  }

  /** The turns taken so far lead from `w0` to `w`, and whatever valid turns
      follow from `w` complete them. */
  ghost predicate DrainsOn(w0: P.World, u: string, picks: seq<P.Pick>, w: P.World) {
    && u in w0.store && u in w.store
    && forall rest {:trigger P.ValidDrain(w.store[u].mail, rest)} :: P.ValidDrain(w.store[u].mail, rest) ==>
         P.ValidDrain(w0.store[u].mail, picks + rest) && P.DoDrain(w0, u, picks + rest) == P.DoDrain(w, u, rest)
  }

  lemma DrainBegins(w0: P.World, u: string)
    requires u in w0.store
    ensures DrainsOn(w0, u, [], w0)
  {
    forall rest: seq<P.Pick> ensures [] + rest == rest {}
  }

  lemma DrainGoesOn(w0: P.World, u: string, picks: seq<P.Pick>, w: P.World, w': P.World, id: MsgId)
    requires DrainsOn(w0, u, picks, w) && id in w.store[u].mail
    requires var l := P.Letter(u, w.store[u].mail[id]);
             w' == P.World(SetMail(w.store, u, w.store[u].mail - {id}),
                           P.After(P.After(w.log, P.Delivered(l)), P.AckTried(l)))
    ensures DrainsOn(w0, u, picks + [P.Pick(id, true)], w')
  {
    forall rest {:trigger P.ValidDrain(w'.store[u].mail, rest)} | P.ValidDrain(w'.store[u].mail, rest)
      ensures P.ValidDrain(w0.store[u].mail, picks + [P.Pick(id, true)] + rest)
           && P.DoDrain(w0, u, picks + [P.Pick(id, true)] + rest) == P.DoDrain(w', u, rest)
    {
      var more := [P.Pick(id, true)] + rest;
      assert more[1..] == rest;
      assert P.ValidDrain(w.store[u].mail, more);
      assert picks + [P.Pick(id, true)] + rest == picks + more;
    }
  }

  lemma DrainFails(w0: P.World, u: string, picks: seq<P.Pick>, w: P.World, w': P.World, id: MsgId)
    requires DrainsOn(w0, u, picks, w) && id in w.store[u].mail
    requires w' == P.World(P.Offline(w.store, u), P.After(w.log, P.Undelivered(P.Letter(u, w.store[u].mail[id]))))
    ensures P.ValidDrain(w0.store[u].mail, picks + [P.Pick(id, false)])
    ensures P.DoDrain(w0, u, picks + [P.Pick(id, false)]) == w'
  {
    assert P.ValidDrain(w.store[u].mail, [P.Pick(id, false)]);
  }

  lemma DrainEnds(w0: P.World, u: string, picks: seq<P.Pick>, w: P.World)
    requires DrainsOn(w0, u, picks, w) && w.store[u].mail == map[]
    ensures P.ValidDrain(w0.store[u].mail, picks) && P.DoDrain(w0, u, picks) == w
  {
    assert P.ValidDrain(w.store[u].mail, []);
    assert picks + [] == picks;
  }
}

/** The steps of the interleaved services as calls into the database: each step
    that touches the accounts is one operation of src/dbms/dbms.c, and goes on
    as the service goes on from that operation's code and entry. */
module Calls {
  import opened Types
  import opened Protocol
  import opened Interleaving
  import opened Decimal
  import opened FileTree
  import Refinement
  import Database

  datatype Call =
    | Exists(user: string)
    | Create(entry: Entry)
    | Delete(user: string)
    | Pend(user: string, pick: MsgId)
    | Io(entry: Entry, mode: Mode)

  /** The members of an entry that are set before a READ fills in the rest. */
  function Unread(u: string): Entry { Entry(u, UserPart(UserData(Disconnected, 0, 0, 0))) }

  function UserEntry(u: string, d: UserData): Entry { Entry(u, UserPart(d)) }

  function LetterEntry(l: Letter): Entry { Entry(l.to, MessagePart(l.msg)) }

  /** The database call a thread makes next, if it makes one. */
  function CallOf(t: Thread, c: Choice): Option<Call>
    requires c.Go?
  {
    match t
    case CreatingTable(u, ip, port) => Some(Create(UserEntry(u, UserData(Disconnected, ip, port, 0))))
    case CheckingUser(u) => Some(Exists(u))
    case DeletingTable(u) => Some(Delete(u))
    case ReadingToDisconnect(u) => Some(Io(Unread(u), READ))
    case WritingDisconnect(u, d) => Some(Io(UserEntry(u, d), MODIFY))
    case ReadingToConnect(u, _, _) => Some(Io(Unread(u), READ))
    case WritingConnect(u, d) => Some(Io(UserEntry(u, d), MODIFY))
    case OpeningMailbox(u) => Some(Io(Unread(u), READ))
    case Listing(u, _) => Some(Pend(u, c.pick))
    case Rereading(u, d, _) => Some(Io(UserEntry(u, d), READ))
    case DeletingLetter(_, _, l) => Some(Io(LetterEntry(l), DELETE))
    case DroppingReader(u, d, _) => Some(Io(UserEntry(u, d), MODIFY))
    case CheckingSender(from, _, _) => Some(Exists(from))
    case CheckingRecipient(_, to, _, _) => Some(Exists(to))
    case ReadingRecipient(_, to, _) => Some(Io(Unread(to), READ))
    case TakingId(l, d) => Some(Io(UserEntry(l.to, d), MODIFY))
    case RereadingRecipient(l, d) => Some(Io(UserEntry(l.to, d), READ))
    case DroppingRecipient(l, d) => Some(Io(UserEntry(l.to, d), MODIFY))
    case Storing(l, d, _, _) =>
      if d.status == Disconnected || c.flag != SRV_SUCCESS then Some(Io(LetterEntry(l), CREATE)) else None
    case _ => None
  }

  /** Code, entry and accounts after a call, as the contracts of `Database.Dbms` give them. */
  function Perform(s: Store, call: Call): (int, Entry, Store)
    requires call.Io? ==> call.mode != OVERWRITE && (call.mode == DELETE ==> call.entry.part.MessagePart?)
    requires call.Create? ==> call.entry.part.UserPart?
  {
    match call
    case Exists(u) => (if u in s then Database.TRUE else Database.FALSE, Unread(u), s)
    case Create(e) =>
      if e.username in s then (DBMS_ERR_EXISTS, e, s)
      else (DBMS_SUCCESS, e, s[e.username := Account(e.part.user, map[])])
    case Delete(u) => (if u in s then 0 else DBMS_ERR_NOT_EXISTS, Unread(u), s - {u})
    case Pend(u, pick) =>
      if u !in s then (DBMS_ERR_ANY, Unread(u), s)
      else if pick !in s[u].mail then (DBMS_ERR_NOT_EXISTS, Unread(u), s)
      else (DBMS_SUCCESS, Entry(u, MessagePart(s[u].mail[pick])), s)
    case Io(e, mode) => Refinement.StoreIo(s, e, mode)
  }

  /** The thread is about to read a user's data. */
  predicate ReadsUser(t: Thread) {
    || t.ReadingToDisconnect? || t.ReadingToConnect? || t.OpeningMailbox? || t.Rereading?
    || t.ReadingRecipient? || t.RereadingRecipient?
  }

  /** How the service goes on, given the code and the entry of its call. */
  function Onward(t: Thread, code: int, filled: Entry): Thread
    requires code >= 0 && ReadsUser(t) ==> filled.part.UserPart?
    requires code >= 0 && t.Listing? ==> filled.part.MessagePart?
  {
    match t
    case CreatingTable(u, _, _) =>
      ReplyingTo(REGISTER, u, if code == DBMS_ERR_EXISTS then SRV_ERR_REG_USR_ALREADY_REG else SRV_SUCCESS)
    case CheckingUser(u) =>
      if code == Database.TRUE then DeletingTable(u)
      else ReplyingTo(UNREGISTER, u, if code == Database.FALSE then SRV_ERR_UNREG_USR_NOT_EXISTS else SRV_ERR_UNREG_ANY)
    case DeletingTable(u) => ReplyingTo(UNREGISTER, u, if code < 0 then SRV_ERR_UNREG_ANY else SRV_SUCCESS)
    case ReadingToDisconnect(u) =>
      if code == DBMS_ERR_NOT_EXISTS then ReplyingTo(DISCONNECT, u, SRV_ERR_DCN_USR_NOT_EXISTS)
      else if code < 0 then ReplyingTo(DISCONNECT, u, SRV_ERR_DCN_ANY)
      else if filled.part.user.status == Disconnected then ReplyingTo(DISCONNECT, u, SRV_ERR_DCN_USR_NOT_CN)
      else WritingDisconnect(u, filled.part.user.(status := Disconnected, ip := 0, port := 0))
    case WritingDisconnect(u, _) =>
      ReplyingTo(DISCONNECT, u, if code == DBMS_ERR_NOT_EXISTS then SRV_ERR_DCN_USR_NOT_EXISTS
                                else if code < 0 then SRV_ERR_DCN_ANY else SRV_SUCCESS)
    case ReadingToConnect(u, portText, peer) =>
      if code == DBMS_ERR_NOT_EXISTS then ReplyingConnect(u, SRV_ERR_CN_USR_NOT_EXISTS)
      else if code < 0 then ReplyingConnect(u, SRV_ERR_CN_ANY)
      else if filled.part.user.status == Connected then ReplyingConnect(u, SRV_ERR_CN_USR_ALREADY_CN)
      else if StrToPort(portText).None? || peer.None? then ReplyingConnect(u, SRV_ERR_CN_ANY)
      else
        var port := StrToPort(portText).value;
        WritingConnect(u, filled.part.user.(status := Connected, ip := peer.value, port := port))
    case WritingConnect(u, _) =>
      ReplyingConnect(u, if code == DBMS_ERR_NOT_EXISTS then SRV_ERR_CN_USR_NOT_EXISTS
                         else if code < 0 then SRV_ERR_CN_ANY else SRV_SUCCESS)
    case OpeningMailbox(u) => if code < 0 then Idle else Listing(u, filled.part.user)
    case Listing(u, d) => if code == DBMS_SUCCESS then Rereading(u, d, Letter(u, filled.part.msg)) else Idle
    case Rereading(u, d, l) => if code < 0 then DroppingReader(u, Down(d), l) else Forwarding(u, filled.part.user, l)
    case DeletingLetter(u, d, l) => AckingLetter(u, d, l)
    case DroppingReader(_, _, _) => Idle
    case CheckingSender(from, to, text) => CheckingRecipient(from, to, text, code == Database.TRUE)
    case CheckingRecipient(from, to, text, senderExists) =>
      if senderExists && code == Database.TRUE then ReadingRecipient(from, to, text)
      else Refusing(from, to, SRV_ERR_SEND_USR_NOT_EXISTS)
    case ReadingRecipient(from, to, text) =>
      if code < 0 then Refusing(from, to, SRV_ERR_SEND_ANY) else
        var id := NextId(filled.part.user.lastMsgId);
        TakingId(Letter(to, Message(from, id, text)), filled.part.user.(lastMsgId := id))
    case TakingId(l, d) =>
      if code < 0 then Refusing(l.msg.sender, l.to, SRV_ERR_SEND_ANY)
      else if d.status == Connected then RereadingRecipient(l, d)
      else Storing(l, d, SRV_SUCCESS, false)
    case RereadingRecipient(l, d) =>
      if code < 0 then DroppingRecipient(l, Down(d)) else Passing(l, filled.part.user)
    case DroppingRecipient(l, d) => Storing(l, d, if code < 0 then SRV_ERR_SEND_ANY else SRV_SUCCESS, false)
    case Storing(l, d, before, earned) =>
      if code < 0 then Answering(l, d, SRV_ERR_SEND_ANY, earned) else Answering(l, d, before, true)
    case _ => t
  }

  /** What the history records of a call, given its code. */
  function Recorded(s: Store, h: History, t: Thread, code: int): History {
    match t
    case DeletingTable(u) => if code >= 0 && u in s then After(h, Erased(u, s[u].mail)) else h
    case DroppingReader(_, _, l) => After(h, Undelivered(l))
    case TakingId(l, _) => if code >= 0 then After(h, Assigned(l.to)) else h
    case DroppingRecipient(l, _) => After(h, Undelivered(l))
    case Storing(l, d, _, _) =>
      var h' := if d.status == Connected then After(h, Stale(l)) else h;
      if code >= 0 then After(h', Stored(l)) else h'
    case _ => h
  }

  /** The effect is that of the thread's call, if it makes one, and otherwise
      leaves the accounts alone. */
  predicate AsCalled(s: Store, h: History, t: Thread, c: Choice, e: Effect)
    requires c.Go?
  {
    match CallOf(t, c)
    case None => e.store == s
    case Some(call) =>
      var (code, filled, s') := Perform(s, call);
      e.store == s' && e.thread == Onward(t, code, filled) && e.log == Recorded(s, h, t, code)
  }

  /** Each step that makes a database call leaves the accounts of that call,
      records it, and goes on from its code and entry; no other step changes the accounts. A
      directory listing yields some name of a mailbox that has any. */
  lemma StepIsCall(s: Store, h: History, t: Thread, c: Choice)
    requires c.Go? && Sane(t)
    requires t.Listing? && t.user in s && s[t.user].mail != map[] ==> c.pick in s[t.user].mail
    ensures AsCalled(s, h, t, c, ThreadStep(s, h, t, c))
  {
    if InTableService(t) { TableIsCall(s, h, t, c); }
    else if InConnect(t) { ConnectIsCall(s, h, t, c); }
    else { SendIsCall(s, h, t, c); }
  }

  lemma TableIsCall(s: Store, h: History, t: Thread, c: Choice)
    requires c.Go? && InTableService(t)
    ensures AsCalled(s, h, t, c, TableStep(s, h, t))
  {
  }

  lemma ConnectIsCall(s: Store, h: History, t: Thread, c: Choice)
    requires c.Go? && InConnect(t) && Sane(t)
    requires t.Listing? && t.user in s && s[t.user].mail != map[] ==> c.pick in s[t.user].mail
    ensures AsCalled(s, h, t, c, ConnectStep(s, h, t, c))
  {
    if t.DeletingLetter? && t.user in s && t.letter.msg.id !in s[t.user].mail {
      assert s[t.user].mail - {t.letter.msg.id} == s[t.user].mail;
    }
  }

  lemma SendIsCall(s: Store, h: History, t: Thread, c: Choice)
    requires c.Go? && !InTableService(t) && !InConnect(t)
    ensures AsCalled(s, h, t, c, SendStep(s, h, t, c))
  {
  }
}

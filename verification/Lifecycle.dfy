/** The history of a serial run determines who is registered, who is online,
    what every reply code is, and which identifiers letters carry. */
module Lifecycle {
  import opened Types
  import opened Protocol

  /** The accounts agree with the history about user `u`: registration, status,
      and the identifier counter modulo its range. */
  ghost predicate Agrees(w: World, u: string) {
    var s := StandingOf(w.log, u);
    && (u in w.store <==> s.member)
    && (s.online ==> s.member)
    && (u in w.store ==>
          && (w.store[u].data.status == Connected <==> s.online)
          && w.store[u].data.lastMsgId == s.taken % MSG_ID_MAX_VALUE)
  }

  /** Every message in `u`'s mailbox is filed under the number, modulo the
      range, of identifiers taken when it was stored. */
  ghost predicate Filed(w: World, u: string) {
    u in w.store ==> forall i :: i in w.store[u].mail ==>
      && 1 <= FiledAt(w.log, u, i) <= StandingOf(w.log, u).taken
      && FiledAt(w.log, u, i) % MSG_ID_MAX_VALUE == i
  }

  /** The reply codes, as the numbers on the wire, a service may give to a user
      of this standing. */
  predicate Fitting(service: Service, s: Standing, code: int) {
    match service
    case REGISTER => code == if s.member then 1 else 0
    case UNREGISTER => code == if s.member then 0 else 1
    case CONNECT =>
      if !s.member then code == 1 else if s.online then code == 2 else code == 0 || code == 3
    case DISCONNECT => code == if !s.member then 1 else if !s.online then 2 else 0
  }

  /** Every reply in the history fits the standing its user had just before,
      and identifiers are taken only for registered users. */
  ghost predicate Lawful(h: History) {
    h.After? ==>
      && Lawful(h.past)
      && (h.event.Replied? ==>
            Fitting(h.event.service, StandingOf(h.past, h.event.user), h.event.code))
      && (h.event.Assigned? ==> StandingOf(h.past, h.event.user).member)
      && (h.event.Refused? ==>
            && h.event.code == 1
            && !(StandingOf(h.past, h.event.sender).member && StandingOf(h.past, h.event.recipient).member))
  }

  ghost predicate Kept(w: World) {
    && (forall u {:trigger Agrees(w, u)} :: Agrees(w, u))
    && (forall u {:trigger Filed(w, u)} :: Filed(w, u))
    && Lawful(w.log)
  }

  lemma NextIdCounts(n: nat)
    ensures var last: MsgId := n % MSG_ID_MAX_VALUE; NextId(last) == (n + 1) % MSG_ID_MAX_VALUE
  {
    var last := n % MSG_ID_MAX_VALUE;
    var q := n / MSG_ID_MAX_VALUE;
    assert n + 1 == q * MSG_ID_MAX_VALUE + (last + 1);
    if last + 1 < MSG_ID_MAX_VALUE {
      assert (n + 1) / MSG_ID_MAX_VALUE == q;
    } else {
      assert n + 1 == (q + 1) * MSG_ID_MAX_VALUE;
    }
  }

  /** An entry under which one user's account may change, the rest standing. */
  lemma KeptEntry(w: World, store: Store, e: Event, u: string)
    requires Kept(w)
    requires forall v :: v != u ==> (v in store <==> v in w.store)
    requires forall v :: v != u && v in store ==> store[v] == w.store[v]
    requires forall v {:trigger StandingOf(w.log, v)} ::
               v != u ==> Move(StandingOf(w.log, v), e, v) == StandingOf(w.log, v)
    requires e.Stored? ==> e.letter.to == u
    requires Agrees(World(store, After(w.log, e)), u) && Filed(World(store, After(w.log, e)), u)
    requires Lawful(After(w.log, e))
    ensures Kept(World(store, After(w.log, e)))
  {
    var w' := World(store, After(w.log, e));
    forall v ensures Agrees(w', v) && Filed(w', v) {
      assert Agrees(w, v) && Filed(w, v);
      if v != u {
        assert StandingOf(w'.log, v) == Move(StandingOf(w.log, v), e, v);
        if v in store {
          forall i | i in store[v].mail ensures FiledAt(w'.log, v, i) == FiledAt(w.log, v, i) {}
        }
      }
    }
  }

  /** An event that moves nobody and files nothing, over shrinking or equal mailboxes. */
  lemma KeptQuietly(w: World, store: Store, e: Event, u: string)
    requires Kept(w) && u in w.store && u in store
    requires e.Delivered? || e.Stale? || e.Answered? || e.AckTried?
    requires store == w.store[u := store[u]] && store[u].data == w.store[u].data
    requires forall i :: i in store[u].mail ==> i in w.store[u].mail
    ensures Kept(World(store, After(w.log, e)))
  {
    assert Agrees(w, u) && Filed(w, u);
    var w' := World(store, After(w.log, e));
    assert StandingOf(w'.log, u) == StandingOf(w.log, u);
    forall i | i in store[u].mail ensures FiledAt(w'.log, u, i) == FiledAt(w.log, u, i) {}
    KeptEntry(w, store, e, u);
  }

  /** Going offline after a failed delivery. */
  lemma KeptOffline(w: World, l: Letter)
    requires Kept(w) && l.to in w.store
    ensures Kept(World(Offline(w.store, l.to), After(w.log, Undelivered(l))))
  {
    var u := l.to;
    assert Agrees(w, u) && Filed(w, u);
    var w' := World(Offline(w.store, u), After(w.log, Undelivered(l)));
    assert StandingOf(w'.log, u) == Move(StandingOf(w.log, u), Undelivered(l), u);
    forall i | i in w.store[u].mail ensures FiledAt(w'.log, u, i) == FiledAt(w.log, u, i) {}
    KeptEntry(w, w'.store, Undelivered(l), u);
  }

  lemma {:induction false} KeptDrain(w: World, u: string, picks: seq<Pick>)
    requires Kept(w) && u in w.store && ValidDrain(w.store[u].mail, picks)
    ensures Kept(DoDrain(w, u, picks))
    decreases |picks|
  {
    if picks != [] {
      var id, mail := picks[0].id, w.store[u].mail;
      var l := Letter(u, mail[id]);
      if picks[0].sent {
        var s := SetMail(w.store, u, mail - {id});
        KeptQuietly(w, s, Delivered(l), u);
        var w1 := World(s, After(w.log, Delivered(l)));
        KeptQuietly(w1, s, AckTried(l), u);
        KeptDrain(Note(w1, AckTried(l)), u, picks[1..]);
      } else {
        KeptOffline(w, l);
      }
    }
  }

  lemma KeptPass(w: World, l: Letter, reached: bool)
    requires Kept(w) && l.to in w.store && l.msg.id == NextId(w.store[l.to].data.lastMsgId)
    ensures Kept(DoPass(w, l, reached)) && l.to in DoPass(w, l, reached).store
    ensures DoPass(w, l, reached).store[l.to].data.lastMsgId == l.msg.id
  {
    var u := l.to;
    assert Agrees(w, u) && Filed(w, u);
    var data := w.store[u].data.(lastMsgId := l.msg.id);
    var w1 := Note(World(SetData(w.store, u, data), w.log), Assigned(u));
    NextIdCounts(StandingOf(w.log, u).taken);
    assert StandingOf(w1.log, u) == Move(StandingOf(w.log, u), Assigned(u), u);
    assert Lawful(w1.log);
    forall i | i in w.store[u].mail ensures FiledAt(w1.log, u, i) == FiledAt(w.log, u, i) {}
    KeptEntry(w, w1.store, Assigned(u), u);
    if data.status == Connected {
      if reached { KeptQuietly(w1, w1.store, Delivered(l), u); } else { KeptOffline(w1, l); }
    }
  }

  lemma KeptStore(w: World, l: Letter)
    requires Kept(w) && l.to in w.store && l.msg.id !in w.store[l.to].mail
    requires w.store[l.to].data.lastMsgId == l.msg.id && StandingOf(w.log, l.to).taken >= 1
    ensures Kept(World(SetMail(w.store, l.to, w.store[l.to].mail[l.msg.id := l.msg]), After(w.log, Stored(l))))
  {
    var u := l.to;
    assert Agrees(w, u) && Filed(w, u);
    var w' := World(SetMail(w.store, u, w.store[u].mail[l.msg.id := l.msg]), After(w.log, Stored(l)));
    assert StandingOf(w'.log, u) == StandingOf(w.log, u);
    forall i | i in w'.store[u].mail && i != l.msg.id ensures FiledAt(w'.log, u, i) == FiledAt(w.log, u, i) {}
    KeptEntry(w, w'.store, Stored(l), u);
  }

  lemma KeptSettle(w: World, l: Letter, flag: int)
    requires Kept(w) && l.to in w.store
    requires w.store[l.to].data.lastMsgId == l.msg.id && StandingOf(w.log, l.to).taken >= 1
    ensures Kept(DoSettle(w, l, flag))
  {
    var u := l.to;
    var online := w.store[u].data.status == Connected;
    var w1 := if online && flag != SRV_SUCCESS then Note(w, Stale(l)) else w;
    if w1 != w { KeptQuietly(w, w.store, Stale(l), u); }
    assert StandingOf(w1.log, u) == StandingOf(w.log, u);
    var w2;
    if online && flag == SRV_SUCCESS {
      w2 := Note(w1, Answered(l, SRV_SUCCESS));
      KeptQuietly(w1, w1.store, Answered(l, SRV_SUCCESS), u);
    } else if l.msg.id in w1.store[u].mail {
      w2 := Note(w1, Answered(l, SRV_ERR_SEND_ANY));
      KeptQuietly(w1, w1.store, Answered(l, SRV_ERR_SEND_ANY), u);
    } else {
      KeptStore(w1, l);
      var w3 := World(SetMail(w1.store, u, w1.store[u].mail[l.msg.id := l.msg]), After(w1.log, Stored(l)));
      w2 := Note(w3, Answered(l, SRV_SUCCESS));
      KeptQuietly(w3, w3.store, Answered(l, SRV_SUCCESS), u);
    }
    if online { KeptQuietly(w2, w2.store, AckTried(l), u); }
  }

  lemma KeptSend(w: World, sender: string, recipient: string, content: string, reached: bool, flag: int)
    requires Kept(w)
    ensures Kept(DoSend(w, sender, recipient, content, reached, flag))
  {
    assert Agrees(w, sender) && Agrees(w, recipient);
    if sender in w.store && recipient in w.store {
      var l := NewLetter(w.store, sender, recipient, content);
      KeptPass(w, l, reached);
      var w1 := DoPass(w, l, reached);
      assert StandingOf(w1.log, recipient).taken >= 1 by {
        var h := After(w.log, Assigned(recipient));
        assert StandingOf(h, recipient) == Move(StandingOf(w.log, recipient), Assigned(recipient), recipient);
      }
      KeptSettle(w1, l, flag);
    } else {
      KeptReply(w, w.store, Refused(sender, recipient, SRV_ERR_SEND_USR_NOT_EXISTS), sender);
    }
  }

  /** A reply that changes at most its user's data. */
  lemma KeptReply(w: World, store: Store, e: Event, u: string)
    requires Kept(w)
    requires (e.Replied? && e.user == u) || (e.Refused? && store == w.store)
    requires forall v :: v != u ==> (v in store <==> v in w.store)
    requires forall v :: v != u && v in store ==> store[v] == w.store[v]
    requires u in store ==> (u in w.store && store[u].mail == w.store[u].mail) || store[u].mail == map[]
    requires e.Refused? || e.code != SRV_SUCCESS || e.service != REGISTER ==>
               u in store ==> u in w.store && store[u].data.lastMsgId == w.store[u].data.lastMsgId
    requires Agrees(World(store, After(w.log, e)), u)
    requires Lawful(After(w.log, e))
    ensures Kept(World(store, After(w.log, e)))
  {
    var w' := World(store, After(w.log, e));
    assert Agrees(w, u) && Filed(w, u);
    assert StandingOf(w'.log, u) == Move(StandingOf(w.log, u), e, u);
    if u in store && store[u].mail != map[] {
      forall i | i in store[u].mail ensures FiledAt(w'.log, u, i) == FiledAt(w.log, u, i) {}
      assert u in w.store && StandingOf(w.log, u).member;
    }
    KeptEntry(w, store, e, u);
  }

  lemma KeptUnregister(w: World, u: string)
    requires Kept(w)
    ensures Kept(DoUnregister(w, u))
  {
    assert Agrees(w, u) && Filed(w, u);
    var w' := DoUnregister(w, u);
    if u in w.store {
      var h := After(w.log, Erased(u, w.store[u].mail));
      assert StandingOf(h, u) == StandingOf(w.log, u);
      assert StandingOf(w'.log, u) == Move(StandingOf(h, u), w'.log.event, u);
      forall v ensures Agrees(w', v) && Filed(w', v) {
        assert Agrees(w, v) && Filed(w, v);
        assert StandingOf(h, v) == StandingOf(w.log, v);
        assert StandingOf(w'.log, v) == Move(StandingOf(h, v), w'.log.event, v);
        if v in w'.store {
          forall i | i in w'.store[v].mail ensures FiledAt(w'.log, v, i) == FiledAt(w.log, v, i) {
            assert FiledAt(w'.log, v, i) == FiledAt(h, v, i);
          }
        }
      }
      assert Lawful(h);
    } else {
      KeptReply(w, w.store, w'.log.event, u);
    }
  }

  lemma ServiceKept(w: World, r: Request)
    requires Enabled(w, r) && Kept(w)
    ensures Kept(Exec(w, r))
  {
    match r {
      case Register(u, ip, port) =>
        assert Agrees(w, u);
        var w' := DoRegister(w, u, ip, port);
        assert StandingOf(w'.log, u) == Move(StandingOf(w.log, u), w'.log.event, u);
        KeptReply(w, w'.store, w'.log.event, u);
      case Unregister(u) => KeptUnregister(w, u);
      case Disconnect(u) =>
        assert Agrees(w, u);
        var w' := DoDisconnect(w, u);
        assert StandingOf(w'.log, u) == Move(StandingOf(w.log, u), w'.log.event, u);
        KeptReply(w, w'.store, w'.log.event, u);
      case Connect(u, portText, peer, picks) =>
        assert Agrees(w, u);
        var w1 := DoGreet(w, u, portText, peer);
        assert StandingOf(w1.log, u) == Move(StandingOf(w.log, u), w1.log.event, u);
        KeptReply(w, w1.store, w1.log.event, u);
        if u in w.store { KeptDrain(w1, u, picks); }
      case Send(sender, recipient, content, reached, flag) =>
        KeptSend(w, sender, recipient, content, reached, flag);
    }
  }

  lemma {:induction false} RunKept(rs: seq<Request>, w: World)
    requires Reaches(rs, w)
    ensures Kept(w)
  {
    if rs == [] {
      forall u ensures Agrees(w, u) && Filed(w, u) {}
    } else {
      var before :| Reaches(Front(rs), before) && Step(before, Last(rs), w);
      RunKept(Front(rs), before);
      ServiceKept(before, Last(rs));
    }
  }

  /** In every serial run the history alone says who is registered and who is
      online, and every reply code follows from the history before it. */
  lemma RepliesFollowHistory(rs: seq<Request>, w: World, u: string)
    requires Reaches(rs, w)
    ensures Lawful(w.log)
    ensures u in w.store <==> StandingOf(w.log, u).member
    ensures u in w.store ==> (w.store[u].data.status == Connected <==> StandingOf(w.log, u).online)
  {
    RunKept(rs, w);
    assert Agrees(w, u);
  }

  /** The successful registrations and removals of `u`, oldest first. */
  function Enrolments(h: History, u: string): seq<Service> {
    match h
    case Start => []
    case After(past, e) =>
      if e.Replied? && e.user == u && e.code == SRV_SUCCESS && (e.service == REGISTER || e.service == UNREGISTER)
      then Enrolments(past, u) + [e.service] else Enrolments(past, u)
  }

  /** REGISTER and UNREGISTER succeed strictly by turns, REGISTER first. */
  lemma {:induction false} EnrolmentsAlternate(h: History, u: string)
    requires Lawful(h)
    ensures forall k :: 0 <= k < |Enrolments(h, u)| ==>
              Enrolments(h, u)[k] == if k % 2 == 0 then REGISTER else UNREGISTER
    ensures |Enrolments(h, u)| % 2 == 1 <==> StandingOf(h, u).member
  {
    if h.After? {
      EnrolmentsAlternate(h.past, u);
      assert StandingOf(h, u) == Move(StandingOf(h.past, u), h.event, u);
    }
  }

  /** What ends a connection: DISCONNECT, a failed delivery, or UNREGISTER. */
  predicate Disconnects(e: Event, u: string) {
    || e == Replied(DISCONNECT, u, SRV_SUCCESS)
    || e == Replied(UNREGISTER, u, SRV_SUCCESS)
    || (e.Undelivered? && e.letter.to == u)
  }

  /** `h` extends `p` without any of these events. */
  ghost predicate Uninterrupted(p: History, h: History, u: string)
    requires Prefix(p, h)
  {
    h == p || (!Disconnects(h.event, u) && Uninterrupted(p, h.past, u))
  }

  lemma {:induction false} StaysOnline(p: History, h: History, u: string)
    requires Lawful(h) && Prefix(p, h) && Uninterrupted(p, h, u)
    requires StandingOf(p, u).online && StandingOf(p, u).member
    ensures StandingOf(h, u).online && StandingOf(h, u).member
  {
    if h != p {
      StaysOnline(p, h.past, u);
      assert StandingOf(h, u) == Move(StandingOf(h.past, u), h.event, u);
    }
  }

  lemma {:induction false} PrefixLawful(p: History, h: History)
    requires Lawful(h) && Prefix(p, h)
    ensures Lawful(p)
  {
    if p != h { PrefixLawful(p, h.past); }
  }

  /** Between two successful CONNECTs of a user lies something that ended the
      first connection. */
  lemma ConnectionsEndBetween(rs: seq<Request>, w: World, u: string, first: History, second: History)
    requires Reaches(rs, w) && Prefix(After(second, Replied(CONNECT, u, SRV_SUCCESS)), w.log)
    requires Prefix(After(first, Replied(CONNECT, u, SRV_SUCCESS)), second)
    ensures !Uninterrupted(After(first, Replied(CONNECT, u, SRV_SUCCESS)), second, u)
  {
    RunKept(rs, w);
    var e := Replied(CONNECT, u, SRV_SUCCESS);
    PrefixLawful(After(second, e), w.log);
    PrefixLawful(After(first, e), second);
    assert Fitting(CONNECT, StandingOf(first, u), SRV_SUCCESS) && Fitting(CONNECT, StandingOf(second, u), SRV_SUCCESS);
    assert StandingOf(After(first, e), u) == Move(StandingOf(first, u), e, u);
    if Uninterrupted(After(first, e), second, u) {
      StaysOnline(After(first, e), second, u);
    }
  }

  // Identifiers

  /** After n identifiers taken since registration, the stored counter is n
      modulo 4294967295. */
  lemma CounterFollowsHistory(rs: seq<Request>, w: World, u: string)
    requires Reaches(rs, w) && u in w.store
    ensures w.store[u].data.lastMsgId == StandingOf(w.log, u).taken % 4294967295
  {
    RunKept(rs, w);
    assert Agrees(w, u);
  }

  /** The message pending under `i` was the n-th since registration, a whole
      number of laps of the counter before the letter now being sent. */
  ghost predicate LapsBehind(w: World, u: string, i: MsgId)
    requires u in w.store && i in w.store[u].mail
  {
    var gap := StandingOf(w.log, u).taken + 1 - FiledAt(w.log, u, i);
    gap > 0 && gap % 4294967295 == 0
  }

  lemma SameRemainder(a: nat, b: nat)
    requires a >= b
    ensures a % MSG_ID_MAX_VALUE == b % MSG_ID_MAX_VALUE <==> (a - b) % MSG_ID_MAX_VALUE == 0
  {
    var q := a / MSG_ID_MAX_VALUE - b / MSG_ID_MAX_VALUE;
    var r := a % MSG_ID_MAX_VALUE - b % MSG_ID_MAX_VALUE;
    assert a - b == q * MSG_ID_MAX_VALUE + r;
    if (a - b) % MSG_ID_MAX_VALUE == 0 {
      var k := (a - b) / MSG_ID_MAX_VALUE;
      assert (k - q) * MSG_ID_MAX_VALUE == r && -MSG_ID_MAX_VALUE < r < MSG_ID_MAX_VALUE;
    }
  }

  /** A letter that must be stored is refused for its identifier exactly when
      some message still pending for the recipient was given its identifier a
      whole number of laps (4294967295 identifiers) earlier. */
  lemma CollisionIff(rs: seq<Request>, w: World, sender: string, u: string, content: string)
    requires Reaches(rs, w) && u in w.store
    ensures NewLetter(w.store, sender, u, content).msg.id in w.store[u].mail
       <==> exists i :: i in w.store[u].mail && LapsBehind(w, u, i)
  {
    RunKept(rs, w);
    assert Agrees(w, u) && Filed(w, u);
    var n := StandingOf(w.log, u).taken;
    NextIdCounts(n);
    var id := NewLetter(w.store, sender, u, content).msg.id;
    forall i | i in w.store[u].mail ensures LapsBehind(w, u, i) <==> i == id {
      SameRemainder(n + 1, FiledAt(w.log, u, i));
    }
  }

  lemma NoSmallMultiple(gap: int)
    requires 0 < gap < MSG_ID_MAX_VALUE
    ensures gap % MSG_ID_MAX_VALUE != 0
  {
  }

  /** Within the first 4294967295 identifiers since registration no letter is
      ever refused for its identifier. */
  lemma FirstLapNeverCollides(rs: seq<Request>, w: World, sender: string, u: string, content: string)
    requires Reaches(rs, w) && u in w.store && StandingOf(w.log, u).taken < 4294967295
    ensures NewLetter(w.store, sender, u, content).msg.id !in w.store[u].mail
  {
    CollisionIff(rs, w, sender, u, content);
    RunKept(rs, w);
    FirstLapGaps(w, u);
  }

  lemma FirstLapGaps(w: World, u: string)
    requires Kept(w) && u in w.store && StandingOf(w.log, u).taken < MSG_ID_MAX_VALUE
    ensures forall i :: i in w.store[u].mail ==> !LapsBehind(w, u, i)
  {
    assert Filed(w, u);
    forall i | i in w.store[u].mail ensures !LapsBehind(w, u, i) {
      NoSmallMultiple(StandingOf(w.log, u).taken + 1 - FiledAt(w.log, u, i));
    }
  }
}

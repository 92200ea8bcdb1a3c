/** How identifiers limit acceptances: each taking of an identifier pays for at
    most one accepted letter, so within one registration and one lap of the
    counter every accepted letter meets exactly one fate. */
module Fates {
  import opened Types
  import opened Protocol
  import opened Accounting
  import opened Lifecycle

  /** How often the identifier `id` was taken for `u`. */
  function Takings(h: History, u: string, id: MsgId): nat {
    match h
    case Start => 0
    case After(past, e) =>
      Takings(past, u, id) +
      if e == Assigned(u) && (StandingOf(past, u).taken + 1) % MSG_ID_MAX_VALUE == id then 1 else 0
  }

  function Registrations(h: History, u: string): nat {
    match h
    case Start => 0
    case After(past, e) => Registrations(past, u) + if e == Replied(REGISTER, u, SRV_SUCCESS) then 1 else 0
  }

  ghost predicate Paid(w: World) {
    forall l {:trigger TallyOf(w.log, l)} :: TallyOf(w.log, l).accepted <= Takings(w.log, l.to, l.msg.id)
  }

  /** An event that neither accepts a letter nor takes an identifier. */
  lemma PaidEntry(w: World, store: Store, e: Event)
    requires Paid(w) && !e.Answered?
    ensures Paid(World(store, After(w.log, e)))
  {
    var w' := World(store, After(w.log, e));
    forall l {:trigger TallyOf(w'.log, l)} ensures TallyOf(w'.log, l).accepted <= Takings(w'.log, l.to, l.msg.id) {
      assert TallyOf(w'.log, l) == Count(TallyOf(w.log, l), e, l);
    }
  }

  lemma {:induction false} PaidDrain(w: World, u: string, picks: seq<Pick>)
    requires u in w.store && ValidDrain(w.store[u].mail, picks) && Paid(w)
    ensures Paid(DoDrain(w, u, picks))
    decreases |picks|
  {
    if picks != [] {
      var id := picks[0].id;
      var l := Letter(u, w.store[u].mail[id]);
      if picks[0].sent {
        var s := SetMail(w.store, u, w.store[u].mail - {id});
        PaidEntry(w, s, Delivered(l));
        var w1 := World(s, After(w.log, Delivered(l)));
        PaidEntry(w1, s, AckTried(l));
        PaidDrain(Note(w1, AckTried(l)), u, picks[1..]);
      } else {
        PaidEntry(w, Offline(w.store, u), Undelivered(l));
      }
    }
  }

  /** After the identifier is taken there is room for one more acceptance. */
  ghost predicate Prepaid(w: World, l: Letter) {
    Paid(w) && TallyOf(w.log, l).accepted < Takings(w.log, l.to, l.msg.id)
  }

  lemma PrepaidEntry(w: World, store: Store, e: Event, l: Letter)
    requires Prepaid(w, l) && !e.Answered?
    ensures Prepaid(World(store, After(w.log, e)), l)
  {
    PaidEntry(w, store, e);
    assert TallyOf(After(w.log, e), l) == Count(TallyOf(w.log, l), e, l);
  }

  lemma PaidPass(w: World, l: Letter, reached: bool)
    requires Paid(w) && Agrees(w, l.to) && l.to in w.store
    requires l.msg.id == NextId(w.store[l.to].data.lastMsgId)
    ensures l.to in DoPass(w, l, reached).store && Prepaid(DoPass(w, l, reached), l)
  {
    NextIdCounts(StandingOf(w.log, l.to).taken);
    var data := w.store[l.to].data.(lastMsgId := l.msg.id);
    var w1 := Note(World(SetData(w.store, l.to, data), w.log), Assigned(l.to));
    PaidEntry(w, w1.store, Assigned(l.to));
    assert TallyOf(w1.log, l) == Count(TallyOf(w.log, l), Assigned(l.to), l);
    PrepaidEntry(w1, w1.store, Delivered(l), l);
    PrepaidEntry(w1, Offline(w1.store, l.to), Undelivered(l), l);
  }

  lemma PaidAnswer(w: World, l: Letter, code: int)
    requires Prepaid(w, l)
    ensures Paid(Note(w, Answered(l, code)))
  {
    var h := After(w.log, Answered(l, code));
    forall k {:trigger TallyOf(h, k)} ensures TallyOf(h, k).accepted <= Takings(h, k.to, k.msg.id) {
      assert TallyOf(h, k) == Count(TallyOf(w.log, k), Answered(l, code), k);
    }
  }

  lemma PaidSettle(w: World, l: Letter, flag: int)
    requires Prepaid(w, l) && l.to in w.store
    ensures Paid(DoSettle(w, l, flag))
  {
    var online := w.store[l.to].data.status == Connected;
    PrepaidEntry(w, w.store, Stale(l), l);
    var w1 := if online && flag != SRV_SUCCESS then Note(w, Stale(l)) else w;
    assert Prepaid(w1, l);
    var mail := w1.store[l.to].mail;
    var w2;
    if online && flag == SRV_SUCCESS {
      PaidAnswer(w1, l, SRV_SUCCESS);
      w2 := Note(w1, Answered(l, SRV_SUCCESS));
    } else if l.msg.id in mail {
      PaidAnswer(w1, l, SRV_ERR_SEND_ANY);
      w2 := Note(w1, Answered(l, SRV_ERR_SEND_ANY));
    } else {
      var w3 := World(SetMail(w1.store, l.to, mail[l.msg.id := l.msg]), After(w1.log, Stored(l)));
      PrepaidEntry(w1, w3.store, Stored(l), l);
      PaidAnswer(w3, l, SRV_SUCCESS);
      w2 := Note(w3, Answered(l, SRV_SUCCESS));
    }
    PaidEntry(w2, w2.store, AckTried(l));
  }

  lemma ServicePaid(w: World, r: Request)
    requires Enabled(w, r) && Paid(w) && Kept(w)
    ensures Paid(Exec(w, r))
  {
    var w' := Exec(w, r);
    match r {
      case Unregister(u) =>
        var w1 := if u in w.store then World(w.store - {u}, After(w.log, Erased(u, w.store[u].mail))) else w;
        if u in w.store { PaidEntry(w, w1.store, w1.log.event); }
        PaidEntry(w1, w1.store, w'.log.event);
      case Connect(u, portText, peer, picks) =>
        var w1 := DoGreet(w, u, portText, peer);
        PaidEntry(w, w1.store, w1.log.event);
        if u in w.store { PaidDrain(w1, u, picks); }
      case Send(sender, recipient, content, reached, flag) =>
        if sender in w.store && recipient in w.store {
          var l := NewLetter(w.store, sender, recipient, content);
          assert Agrees(w, recipient);
          PaidPass(w, l, reached);
          PaidSettle(DoPass(w, l, reached), l, flag);
        } else {
          PaidEntry(w, w.store, w'.log.event);
        }
      case _ => PaidEntry(w, w'.store, w'.log.event);
    }
  }

  lemma {:induction false} RunPaid(rs: seq<Request>, w: World)
    requires Reaches(rs, w)
    ensures Paid(w)
  {
    if rs != [] {
      var before :| Reaches(Front(rs), before) && Step(before, Last(rs), w);
      RunPaid(Front(rs), before);
      RunKept(Front(rs), before);
      ServicePaid(before, Last(rs));
    }
  }

  /** While `u` has registered at most once, and fewer identifiers were taken
      than the counter holds, no identifier was taken twice. */
  lemma {:induction false} TakenOnce(h: History, u: string, id: MsgId)
    requires Lawful(h) && Registrations(h, u) <= 1 && AllTakings(h, u) < MSG_ID_MAX_VALUE
    ensures Registrations(h, u) == 0 ==> AllTakings(h, u) == 0 && !StandingOf(h, u).member
    ensures StandingOf(h, u).member ==> StandingOf(h, u).taken == AllTakings(h, u)
    ensures Takings(h, u, id) <= if 1 <= id <= AllTakings(h, u) then 1 else 0
  {
    if h.After? {
      TakenOnce(h.past, u, id);
      assert StandingOf(h, u) == Move(StandingOf(h.past, u), h.event, u);
    }
  }

  /** In every serial run whose unset codes read as success, a letter to a user
      who has registered at most once and not yet run through all identifiers
      is accepted at most once, and if it was, it is exactly one of delivered
      once, discarded once, and pending. */
  lemma OneFate(rs: seq<Request>, w: World, l: Letter)
    requires Reaches(rs, w) && FlagsClear(rs)
    requires Registrations(w.log, l.to) <= 1 && AllTakings(w.log, l.to) < MSG_ID_MAX_VALUE
    ensures var t := TallyOf(w.log, l);
            && t.accepted <= 1
            && t.delivered + t.discarded + Pending(w.store, l) == t.accepted
  {
    RunPaid(rs, w);
    RunKept(rs, w);
    TakenOnce(w.log, l.to, l.msg.id);
    ExactlyOnce(rs, w, l);
  }

  // Two laps

  /** `n` SENDs of the offline user `u` to itself. */
  function Flood(u: string, n: nat): seq<Request> {
    if n == 0 then [Register(u, 0, 0)] else Flood(u, n - 1) + [Send(u, u, "", false, 0)]
  }

  /** The number, in its lap, of the taking that yields `id`. */
  function FirstTaking(id: MsgId): int { if id == 0 then MSG_ID_MAX_VALUE else id }

  /** After the flood the first lap's messages are still pending. */
  ghost predicate Flooded(w: World, u: string, n: nat) {
    && u in w.store && w.store[u].data.status == Disconnected
    && StandingOf(w.log, u).taken == n
    && w.store[u].data.lastMsgId == n % MSG_ID_MAX_VALUE
    && (forall i: MsgId :: i in w.store[u].mail <==> i < MSG_ID_MAX_VALUE && FirstTaking(i) <= n)
    && (forall i :: i in w.store[u].mail ==> FiledAt(w.log, u, i) == FirstTaking(i))
  }

  lemma TakingOfNext(n: nat)
    ensures var id: MsgId := (n + 1) % MSG_ID_MAX_VALUE;
            && id < MSG_ID_MAX_VALUE
            && (n < MSG_ID_MAX_VALUE ==> FirstTaking(id) == n + 1)
            && (n >= MSG_ID_MAX_VALUE ==> FirstTaking(id) <= n)
  {
    if n + 1 < MSG_ID_MAX_VALUE {
      assert (n + 1) % MSG_ID_MAX_VALUE == n + 1;
    }
  }

  lemma FloodStep(w: World, u: string, n: nat)
    requires Flooded(w, u, n)
    ensures Flooded(Exec(w, Send(u, u, "", false, 0)), u, n + 1)
  {
    NextIdCounts(n);
    TakingOfNext(n);
    var l := NewLetter(w.store, u, u, "");
    var id := l.msg.id;
    var w1 := DoPass(w, l, false);
    assert StandingOf(w1.log, u) == Move(StandingOf(w.log, u), Assigned(u), u);
    var w' := DoSettle(w1, l, 0);
    assert id in w1.store[u].mail <==> FirstTaking(id) <= n;
    forall i | i in w'.store[u].mail ensures FiledAt(w'.log, u, i) == FirstTaking(i) {
      if i in w.store[u].mail {
        assert FiledAt(w1.log, u, i) == FiledAt(w.log, u, i);
      }
    }
  }

  lemma {:induction false} FloodReaches(u: string, n: nat) returns (w: World)
    ensures Reaches(Flood(u, n), w) && Flooded(w, u, n)
  {
    var rs := Flood(u, n);
    if n == 0 {
      w := Exec(START, Register(u, 0, 0));
      assert Front(rs) == [] && Last(rs) == Register(u, 0, 0);
      assert Reaches([], START) && Step(START, Last(rs), w);
      assert StandingOf(w.log, u) == Move(StandingOf(Start, u), w.log.event, u);
    } else {
      var before := FloodReaches(u, n - 1);
      var r := Send(u, u, "", false, 0);
      FloodStep(before, u, n - 1);
      w := Exec(before, r);
      assert Front(rs) == Flood(u, n - 1) && Last(rs) == r;
      assert Step(before, Last(rs), w);
    }
  }

  /** A store can collide although nothing pending was given its identifier
      exactly one lap earlier: after two laps of SENDs to an offline user the
      next one meets a message two laps old. */
  lemma CollidesTwoLapsOn(u: string) returns (rs: seq<Request>, w: World)
    ensures Reaches(rs, w) && u in w.store
    ensures NewLetter(w.store, u, u, "").msg.id in w.store[u].mail
    ensures forall i :: i in w.store[u].mail ==>
              StandingOf(w.log, u).taken + 1 - FiledAt(w.log, u, i) != MSG_ID_MAX_VALUE
  {
    var n := 2 * MSG_ID_MAX_VALUE;
    rs := Flood(u, n);
    w := FloodReaches(u, n);
    NextIdCounts(n);
    TakingOfNext(n);
  }
}

/** Particular schedules of the interleaved services: a service that runs
    alone is exactly its whole step, and two races that the code allows. */
module Schedules {
  import opened Types
  import opened Protocol
  import opened Interleaving
  import opened Decimal
  import A = Accounting

  /** A thread stepping alone. */
  function Solo(e: Effect, choices: seq<Choice>): Effect
    decreases |choices|
  {
    if choices == [] then e else Solo(ThreadStep(e.store, e.log, e.thread, choices[0]), choices[1..])
  }

  /** The same choice over and over. */
  function Repeat(c: Choice, n: nat): seq<Choice> { if n == 0 then [] else [c] + Repeat(c, n - 1) }

  function Alone(i: nat, choices: seq<Choice>): (moves: seq<Move>)
    ensures |moves| == |choices| && forall k :: 0 <= k < |moves| ==> moves[k].thread == i
  {
    seq(|choices|, k requires 0 <= k < |choices| => Move(i, choices[k]))
  }

  lemma {:induction false} PlayAlone(s: State, i: nat, choices: seq<Choice>)
    requires i < |s.threads|
    ensures var e := Solo(Effect(s.store, s.log, s.threads[i]), choices);
            Play(s, Alone(i, choices)) == State(e.store, e.log, s.threads[i := e.thread])
    decreases |choices|
  {
    if choices == [] {
      assert s.threads[i := s.threads[i]] == s.threads;
    } else {
      var s1 := Next(s, i, choices[0]);
      PlayAlone(s1, i, choices[1..]);
      assert Alone(i, choices)[1..] == Alone(i, choices[1..]);
      var e := Solo(Effect(s.store, s.log, s.threads[i]), choices);
      assert s1.threads[i := e.thread] == s.threads[i := e.thread];
    }
  }

  lemma {:induction false} SoloThen(e: Effect, a: seq<Choice>, b: seq<Choice>)
    ensures Solo(e, a + b) == Solo(Solo(e, a), b)
    decreases |a|
  {
    if a == [] {
      assert a + b == b;
    } else {
      assert (a + b)[1..] == a[1..] + b;
      SoloThen(ThreadStep(e.store, e.log, e.thread, a[0]), a[1..], b);
    }
  }

  lemma SoloAgain(e: Effect, c: Choice, n: nat)
    ensures Solo(e, Repeat(c, n + 1)) == Solo(ThreadStep(e.store, e.log, e.thread, c), Repeat(c, n))
  {
    assert Repeat(c, n + 1)[1..] == Repeat(c, n);
  }

  lemma SoloChain(e: Effect, a: seq<Choice>, b: seq<Choice>, c: seq<Choice>)
    ensures Solo(e, a + (b + c)) == Solo(Solo(Solo(e, a), b), c)
  {
    SoloThen(e, a, b + c);
    SoloThen(Solo(e, a), b, c);
  }

  function Step1(e: Effect, c: Choice): Effect { ThreadStep(e.store, e.log, e.thread, c) }

  lemma SoloTwo(e: Effect, c: Choice)
    ensures Solo(e, Repeat(c, 2)) == Step1(Step1(e, c), c)
  {
    SoloAgain(e, c, 1);
    SoloAgain(Step1(e, c), c, 0);
  }

  lemma SoloThree(e: Effect, c: Choice)
    ensures Solo(e, Repeat(c, 3)) == Step1(Step1(Step1(e, c), c), c)
  {
    SoloAgain(e, c, 2);
    SoloAgain(Step1(e, c), c, 1);
    SoloAgain(Step1(Step1(e, c), c), c, 0);
  }

  /** From the identifier being taken to the letter being settled. */
  lemma SoloPass(s: Store, h: History, l: Letter, d: UserData, reached: bool, flag: int)
    requires l.to in s && d == s[l.to].data.(lastMsgId := l.msg.id)
    ensures var c := Go(reached, flag, 0);
            var w := DoPass(World(s, h), l, reached);
            var d' := if d.status == Connected && !reached then Down(d) else d;
            && l.to in w.store && w.store[l.to].data == d'
            && Solo(Effect(s, h, TakingId(l, d)), Repeat(c, PassTurns(d, reached)))
               == Effect(w.store, w.log, Storing(l, d', SRV_SUCCESS, d.status == Connected && reached))
  {
    var c := Go(reached, flag, 0);
    var e0 := Effect(s, h, TakingId(l, d));
    if d.status == Disconnected {
      SoloAgain(e0, c, 0);
    } else {
      SoloAgain(e0, c, if reached then 2 else 3);
      SoloOnline(SetData(s, l.to, d), After(h, Assigned(l.to)), l, d, c);
    }
  }

  /** An online recipient is tried: the entry is read again, and then the
      letter passes or the recipient is taken offline. */
  lemma SoloOnline(s: Store, h: History, l: Letter, d: UserData, c: Choice)
    requires l.to in s && d == s[l.to].data && c.Go?
    ensures Solo(Effect(s, h, RereadingRecipient(l, d)), Repeat(c, if c.reached then 2 else 3))
         == if c.reached then Effect(s, After(h, Delivered(l)), Storing(l, d, SRV_SUCCESS, true))
            else Effect(SetData(s, l.to, Down(d)), After(h, Undelivered(l)), Storing(l, Down(d), SRV_SUCCESS, false))
  {
    var e := Effect(s, h, RereadingRecipient(l, d));
    assert Step1(e, c) == Effect(s, h, Passing(l, d));
    if c.reached {
      SoloTwo(e, c);
    } else {
      SoloThree(e, c);
      assert Step1(Step1(e, c), c) == Effect(s, h, DroppingRecipient(l, Down(d)));
    }
  }

  function PassTurns(d: UserData, reached: bool): nat {
    if d.status == Disconnected then 1 else if reached then 3 else 4
  }

  /** From storing to the end of the request. */
  lemma SoloSettle(s: Store, h: History, l: Letter, d: UserData, reached: bool, flag: int, earned: bool)
    requires l.to in s && d == s[l.to].data && d.lastMsgId == l.msg.id
    ensures var c := Go(reached, flag, 0);
            var w := DoSettle(World(s, h), l, flag);
            Solo(Effect(s, h, Storing(l, d, SRV_SUCCESS, earned)), Repeat(c, 3)) == Effect(w.store, w.log, Idle)
  {
    var c := Go(reached, flag, 0);
    var e0 := Effect(s, h, Storing(l, d, SRV_SUCCESS, earned));
    StoringStep(s, h, l, d, c, earned);
    var e1 := Step1(e0, c);
    SoloAgain(e0, c, 2);
    SoloAnswer(e1, c);
  }

  /** The answer, and the acknowledgement if the recipient is online. */
  lemma SoloAnswer(e: Effect, c: Choice)
    requires e.thread.Answering? && e.thread.data.lastMsgId == e.thread.letter.msg.id && c.Go?
    ensures var l := e.thread.letter;
            var h := After(e.log, Answered(l, e.thread.code));
            Solo(e, Repeat(c, 2))
            == Effect(e.store, if e.thread.data.status == Connected then After(h, AckTried(l)) else h, Idle)
  {
    SoloTwo(e, c);
    var l := e.thread.letter;
    assert l.msg.(id := e.thread.data.lastMsgId) == l.msg;
  }

  /** Storing, with the answer and the acknowledgement still to come. */
  lemma StoringStep(s: Store, h: History, l: Letter, d: UserData, c: Choice, earned: bool)
    requires l.to in s && d == s[l.to].data && c.Go?
    ensures var e := SendStep(s, h, Storing(l, d, SRV_SUCCESS, earned), c);
            var w := DoSettle(World(s, h), l, c.flag);
            && e.thread.Answering? && e.thread.letter == l && e.thread.data == d
            && w.store == e.store
            && w.log == var h1 := After(e.log, Answered(l, e.thread.code));
                        if d.status == Connected then After(h1, AckTried(l)) else h1
  {
  }

  function SendChoices(w: World, r: Request): seq<Choice>
    requires r.Send?
  {
    var c := Go(r.reached, r.flag, 0);
    if r.sender !in w.store || r.recipient !in w.store then [Begin(r)] + Repeat(c, 3)
    else
      [Begin(r)] + (Repeat(c, 3) + (Repeat(c, PassTurns(w.store[r.recipient].data, r.reached)) + Repeat(c, 3)))
  }

  /** The three database reads before the identifier is taken. */
  lemma SoloInit(w: World, r: Request)
    requires r.Send?
    ensures var c := Go(r.reached, r.flag, 0);
            Solo(Effect(w.store, w.log, Starting(r)), Repeat(c, 3))
            == if r.sender in w.store && r.recipient in w.store then
                 var l := NewLetter(w.store, r.sender, r.recipient, r.content);
                 Effect(w.store, w.log, TakingId(l, w.store[r.recipient].data.(lastMsgId := l.msg.id)))
               else Effect(w.store, After(w.log, Refused(r.sender, r.recipient, SRV_ERR_SEND_USR_NOT_EXISTS)), Idle)
  {
    var c := Go(r.reached, r.flag, 0);
    SoloThree(Effect(w.store, w.log, Starting(r)), c);
  }

  lemma SoloBegin(w: World, r: Request, rest: seq<Choice>)
    ensures Solo(Effect(w.store, w.log, Idle), [Begin(r)] + rest) == Solo(Effect(w.store, w.log, Starting(r)), rest)
  {
    assert ([Begin(r)] + rest)[1..] == rest;
  }

  /** From the identifier being taken to the end of the request. */
  lemma SoloRest(w: World, l: Letter, d: UserData, reached: bool, flag: int)
    requires l.to in w.store && d == w.store[l.to].data.(lastMsgId := l.msg.id)
    ensures var c := Go(reached, flag, 0);
            var w' := DoSettle(DoPass(w, l, reached), l, flag);
            Solo(Solo(Effect(w.store, w.log, TakingId(l, d)), Repeat(c, PassTurns(d, reached))), Repeat(c, 3))
            == Effect(w'.store, w'.log, Idle)
  {
    SoloPass(w.store, w.log, l, d, reached, flag);
    var w1 := DoPass(w, l, reached);
    SoloSettle(w1.store, w1.log, l, w1.store[l.to].data, reached, flag, d.status == Connected && reached);
  }

  lemma SendAlone(w: World, r: Request)
    requires r.Send?
    ensures Solo(Effect(w.store, w.log, Idle), SendChoices(w, r)) == Effect(Exec(w, r).store, Exec(w, r).log, Idle)
  {
    var c := Go(r.reached, r.flag, 0);
    SoloInit(w, r);
    if r.sender in w.store && r.recipient in w.store {
      var l := NewLetter(w.store, r.sender, r.recipient, r.content);
      var d := w.store[r.recipient].data.(lastMsgId := l.msg.id);
      var n := PassTurns(w.store[r.recipient].data, r.reached);
      SoloRest(w, l, d, r.reached, r.flag);
      SoloChain(Effect(w.store, w.log, Starting(r)), Repeat(c, 3), Repeat(c, n), Repeat(c, 3));
      SoloBegin(w, r, Repeat(c, 3) + (Repeat(c, n) + Repeat(c, 3)));
    } else {
      SoloBegin(w, r, Repeat(c, 3));
    }
  }

  function DrainChoices(picks: seq<Pick>): seq<Choice> {
    if picks == [] then [Go(true, 0, 0)]
    else if picks[0].sent then Repeat(Go(true, 0, picks[0].id), 5) + DrainChoices(picks[1..])
    else Repeat(Go(false, 0, picks[0].id), 4)
  }

  lemma SoloTurn(s: Store, h: History, u: string, d: UserData, p: Pick)
    requires u in s && p.id in s[u].mail
    ensures var l := Letter(u, s[u].mail[p.id]);
            Solo(Effect(s, h, Listing(u, d)), Repeat(Go(p.sent, 0, p.id), if p.sent then 5 else 4))
            == if p.sent then
                 Effect(SetMail(s, u, s[u].mail - {l.msg.id}), After(After(h, Delivered(l)), AckTried(l)),
                        Listing(u, s[u].data))
               else Effect(Offline(s, u), After(h, Undelivered(l)), Idle)
  {
    var c, l := Go(p.sent, 0, p.id), Letter(u, s[u].mail[p.id]);
    var e0 := Effect(s, h, Listing(u, d));
    var e1 := Step1(e0, c);
    assert e1 == Effect(s, h, Rereading(u, d, l));
    var e2 := Step1(e1, c);
    assert e2 == Effect(s, h, Forwarding(u, s[u].data, l));
    SoloAgain(e0, c, 3);
    SoloThree(e1, c);
    if p.sent {
      SoloAgain(e0, c, 4);
      SoloAgain(e1, c, 3);
      SoloThree(e2, c);
    }
  }

  lemma {:induction false} DrainAlone(s: Store, h: History, u: string, d: UserData, picks: seq<Pick>)
    requires u in s && ValidDrain(s[u].mail, picks) && SelfDescribing(s)
    ensures var w := DoDrain(World(s, h), u, picks);
            Solo(Effect(s, h, Listing(u, d)), DrainChoices(picks)) == Effect(w.store, w.log, Idle)
    decreases |picks|
  {
    var e := Effect(s, h, Listing(u, d));
    if picks == [] {
      assert [Go(true, 0, 0)][1..] == [];
    } else {
      SoloTurn(s, h, u, d, picks[0]);
      if picks[0].sent {
        var l := Letter(u, s[u].mail[picks[0].id]);
        var s1, h1 := SetMail(s, u, s[u].mail - {l.msg.id}), After(After(h, Delivered(l)), AckTried(l));
        DrainAlone(s1, h1, u, s[u].data, picks[1..]);
        SoloThen(e, Repeat(Go(true, 0, picks[0].id), 5), DrainChoices(picks[1..]));
      }
    }
  }

  function ConnectChoices(w: World, r: Request): seq<Choice>
    requires r.Connect?
  {
    var c := Go(true, 0, 0);
    var greeting := Repeat(c, if ConnectCode(w.store, r.user, r.portText, r.peer) == SRV_SUCCESS then 4 else 3);
    [Begin(r)] + (if r.user in w.store then greeting + DrainChoices(r.picks) else greeting)
  }

  /** CONNECT up to the mailbox being opened. */
  lemma SoloGreet(w: World, r: Request)
    requires r.Connect?
    ensures var c, u := Go(true, 0, 0), r.user;
            var code := ConnectCode(w.store, u, r.portText, r.peer);
            var w1 := DoGreet(w, u, r.portText, r.peer);
            Solo(Effect(w.store, w.log, Starting(r)), Repeat(c, if code == SRV_SUCCESS then 4 else 3))
            == Effect(w1.store, w1.log, if u in w.store then Listing(u, w1.store[u].data) else Idle)
  {
    var c := Go(true, 0, 0);
    var e1 := Effect(w.store, w.log, Starting(r));
    if ConnectCode(w.store, r.user, r.portText, r.peer) == SRV_SUCCESS {
      SoloAgain(e1, c, 3);
      SoloThree(Step1(e1, c), c);
    } else {
      SoloThree(e1, c);
    }
  }

  lemma ConnectAlone(w: World, r: Request)
    requires r.Connect? && Enabled(w, r) && SelfDescribing(w.store)
    ensures Solo(Effect(w.store, w.log, Idle), ConnectChoices(w, r)) == Effect(Exec(w, r).store, Exec(w, r).log, Idle)
  {
    var u, c := r.user, Go(true, 0, 0);
    SoloGreet(w, r);
    var w1 := DoGreet(w, u, r.portText, r.peer);
    var greeting := Repeat(c, if ConnectCode(w.store, u, r.portText, r.peer) == SRV_SUCCESS then 4 else 3);
    if u in w.store {
      DrainAlone(w1.store, w1.log, u, w1.store[u].data, r.picks);
      SoloThen(Effect(w.store, w.log, Starting(r)), greeting, DrainChoices(r.picks));
      SoloBegin(w, r, greeting + DrainChoices(r.picks));
    } else {
      SoloBegin(w, r, greeting);
    }
  }

  function TableChoices(w: World, r: Request): seq<Choice>
    requires !r.Send? && !r.Connect?
  {
    [Begin(r)] + Repeat(Go(true, 0, 0), 3)
  }

  lemma TableAlone(w: World, r: Request)
    requires r.Register? || r.Unregister? || r.Disconnect?
    ensures Solo(Effect(w.store, w.log, Idle), TableChoices(w, r)) == Effect(Exec(w, r).store, Exec(w, r).log, Idle)
  {
    var c := Go(true, 0, 0);
    var e := Effect(w.store, w.log, Idle);
    var e1 := Effect(w.store, w.log, Starting(r));
    assert Solo(e, [Begin(r)]) == e1 by { assert [Begin(r)][1..] == []; }
    SoloThen(e, [Begin(r)], Repeat(c, 3));
    SoloThree(e1, c);
  }

  function AloneChoices(w: World, r: Request): seq<Choice> {
    match r
    case Send(_, _, _, _, _) => SendChoices(w, r)
    case Connect(_, _, _, _) => ConnectChoices(w, r)
    case _ => TableChoices(w, r)
  }

  /** A service whose database calls nobody overtakes does exactly its whole
      step: same accounts, same history. */
  lemma AloneIsWhole(w: World, r: Request, s: State, i: nat)
    requires i < |s.threads| && s == State(w.store, w.log, s.threads) && s.threads[i] == Idle
    requires Enabled(w, r) && SelfDescribing(w.store)
    ensures Play(s, Alone(i, AloneChoices(w, r))) == State(Exec(w, r).store, Exec(w, r).log, s.threads)
  {
    PlayAlone(s, i, AloneChoices(w, r));
    WholeService(w, r);
    assert s.threads[i := Idle] == s.threads;
  }

  lemma WholeService(w: World, r: Request)
    requires Enabled(w, r) && SelfDescribing(w.store)
    ensures Solo(Effect(w.store, w.log, Idle), AloneChoices(w, r)) == Effect(Exec(w, r).store, Exec(w, r).log, Idle)
  {
    match r {
      case Send(_, _, _, _, _) => SendAlone(w, r);
      case Connect(_, _, _, _) => ConnectAlone(w, r);
      case _ => TableAlone(w, r);
    }
  }

  lemma {:induction false} PlayThen(s: State, a: seq<Move>, b: seq<Move>)
    requires Schedule(|s.threads|, a) && Schedule(|s.threads|, b)
    ensures Schedule(|s.threads|, a + b) && Play(s, a + b) == Play(Play(s, a), b)
    decreases |a|
  {
    if a == [] {
      assert a + b == b;
    } else {
      assert (a + b)[1..] == a[1..] + b;
      PlayThen(Next(s, a[0].thread, a[0].choice), a[1..], b);
    }
  }

  /** Every serial run is one of the schedules, with a single thread. */
  lemma {:induction false} SerialRunIsSchedule(rs: seq<Request>, w: World) returns (moves: seq<Move>)
    requires Reaches(rs, w)
    ensures Schedule(1, moves)
    ensures Play(State(map[], Start, [Idle]), moves) == State(w.store, w.log, [Idle])
    ensures SelfDescribing(w.store)
  {
    moves := [];
    A.RunBooks(rs, w);
    if rs != [] {
      var before :| Reaches(Front(rs), before) && Step(before, Last(rs), w);
      var earlier := SerialRunIsSchedule(Front(rs), before);
      var now := Alone(0, AloneChoices(before, Last(rs)));
      var s := State(before.store, before.log, [Idle]);
      AloneIsWhole(before, Last(rs), s, 0);
      PlayThen(State(map[], Start, [Idle]), earlier, now);
      moves := earlier + now;
    }
  }

  /** One more stretch of a schedule in which thread `i` runs alone. */
  lemma Extend(s0: State, moves: seq<Move>, i: nat, choices: seq<Choice>) returns (longer: seq<Move>)
    requires Schedule(|s0.threads|, moves) && i < |s0.threads|
    ensures Schedule(|s0.threads|, longer)
    ensures var s := Play(s0, moves);
            var e := Solo(Effect(s.store, s.log, s.threads[i]), choices);
            Play(s0, longer) == State(e.store, e.log, s.threads[i := e.thread])
    ensures longer == moves + Alone(i, choices)
  {
    longer := moves + Alone(i, choices);
    PlayThen(s0, moves, Alone(i, choices));
    PlayAlone(Play(s0, moves), i, choices);
  }

  /** Thread `i` runs a SEND until it has read the recipient's counter. */
  lemma SenderReads(s0: State, before: seq<Move>, i: nat, from: string, to: string, text: string)
    returns (moves: seq<Move>)
    requires Schedule(|s0.threads|, before) && i < |s0.threads|
    requires var s := Play(s0, before); s.threads[i] == Idle && from in s.store && to in s.store
    requires Drainers(before, to, {})
    ensures Schedule(|s0.threads|, moves) && Drainers(moves, to, {})
    ensures var s := Play(s0, before);
            var l := NewLetter(s.store, from, to, text);
            Play(s0, moves) == s.(threads := s.threads[i := TakingId(l, s.store[to].data.(lastMsgId := l.msg.id))])
  {
    var s, c, q := Play(s0, before), Go(true, 0, 0), Send(from, to, text, true, 0);
    var w := World(s.store, s.log);
    SoloInit(w, q);
    SoloBegin(w, q, Repeat(c, 3));
    moves := Extend(s0, before, i, [Begin(q)] + Repeat(c, 3));
  }

  /** The counter is read and written in two separate calls: any two threads
      serving SENDs to an online user can both read it (`early`), and then take
      one identifier, deliver both letters under it and answer both with success. */
  lemma OneIdTwice(s0: State, i: nat, j: nat, from: string, to: string, a: string, b: string)
    returns (early: seq<Move>, moves: seq<Move>)
    requires s0.log == Start && Resting(s0.threads) && i != j && i < |s0.threads| && j < |s0.threads|
    requires from in s0.store && to in s0.store && s0.store[to].data.status == Connected && a != b
    ensures Schedule(|s0.threads|, moves) && Drainers(moves, to, {})
    ensures early <= moves && forall k :: |early| <= k < |moves| ==> moves[k].choice.Go?
    ensures var la, lb := NewLetter(s0.store, from, to, a), NewLetter(s0.store, from, to, b);
            var d := s0.store[to].data.(lastMsgId := la.msg.id);
            && la.msg.id == lb.msg.id
            && Schedule(|s0.threads|, early)
            && Play(s0, early) == s0.(threads := s0.threads[i := TakingId(la, d)][j := TakingId(lb, d)])
            && var s := Play(s0, moves);
            && Resting(s.threads) && s.store == SetData(s0.store, to, d)
            && AllTakings(s.log, to) == 2
            && TallyOf(s.log, la).accepted == 1 && TallyOf(s.log, la).delivered == 1
            && TallyOf(s.log, lb).accepted == 1 && TallyOf(s.log, lb).delivered == 1
  {
    var la, lb := NewLetter(s0.store, from, to, a), NewLetter(s0.store, from, to, b);
    var d := s0.store[to].data.(lastMsgId := la.msg.id);
    early := SenderReads(s0, [], i, from, to, a);
    early := SenderReads(s0, early, j, from, to, b);
    moves := FinishOnline(s0, early, i, la, d);
    moves := FinishOnline(s0, moves, j, lb, d);
    assert SetData(SetData(s0.store, to, d), to, d) == SetData(s0.store, to, d);
  }

  /** An online recipient's SEND runs from its identifier to its end. */
  lemma FinishOnline(s0: State, moves: seq<Move>, i: nat, l: Letter, d: UserData) returns (longer: seq<Move>)
    requires Schedule(|s0.threads|, moves) && i < |s0.threads| && d.status == Connected
    requires var s := Play(s0, moves);
             s.threads[i] == TakingId(l, d) && l.to in s.store && d == s.store[l.to].data.(lastMsgId := l.msg.id)
    requires Drainers(moves, l.to, {})
    ensures Schedule(|s0.threads|, longer) && Drainers(longer, l.to, {})
    ensures moves <= longer && forall k :: |moves| <= k < |longer| ==> longer[k].choice.Go?
    ensures var s, s' := Play(s0, moves), Play(s0, longer);
            && s' == State(SetData(s.store, l.to, d), s'.log, s.threads[i := Idle])
            && AllTakings(s'.log, l.to) == AllTakings(s.log, l.to) + 1
            && forall k :: TallyOf(s'.log, k) == AfterOnline(TallyOf(s.log, k), l, k)
  {
    var s, c := Play(s0, moves), Go(true, 0, 0);
    SoloPass(s.store, s.log, l, d, true, 0);
    var w1 := DoPass(World(s.store, s.log), l, true);
    SoloSettle(w1.store, w1.log, l, d, true, 0, true);
    SoloThen(Effect(s.store, s.log, s.threads[i]), Repeat(c, 3), Repeat(c, 3));
    longer := Extend(s0, moves, i, Repeat(c, 3) + Repeat(c, 3));
    OnlineTally(s.log, l, l);
    forall k ensures TallyOf(Play(s0, longer).log, k) == AfterOnline(TallyOf(s.log, k), l, k) {
      OnlineTally(s.log, l, k);
    }
  }

  function AfterOnline(t: Tally, l: Letter, k: Letter): Tally {
    if k == l then t.(delivered := t.delivered + 1, accepted := t.accepted + 1, acked := t.acked + 1) else t
  }

  lemma OnlineTally(h: History, l: Letter, k: Letter)
    ensures var h2 := After(After(h, Assigned(l.to)), Delivered(l));
            var h4 := After(After(h2, Answered(l, SRV_SUCCESS)), AckTried(l));
            && TallyOf(h4, k) == AfterOnline(TallyOf(h, k), l, k)
            && AllTakings(h4, l.to) == AllTakings(h, l.to) + 1
  {
    var h1 := After(h, Assigned(l.to));
    var h2 := After(h1, Delivered(l));
    var h3 := After(h2, Answered(l, SRV_SUCCESS));
    assert AllTakings(h2, l.to) == AllTakings(h1, l.to) && AllTakings(h3, l.to) == AllTakings(h2, l.to);
    assert TallyOf(h2, k) == Count(TallyOf(h1, k), Delivered(l), k);
    assert TallyOf(h3, k) == Count(TallyOf(h2, k), Answered(l, SRV_SUCCESS), k);
  }

  // Two readers of one mailbox

  /** A schedule in which nobody removes `r` and only `ks` are given CONNECTs for it. */
  ghost predicate Proper(n: nat, moves: seq<Move>, r: string, ks: set<nat>) {
    Schedule(n, moves) && Drainers(moves, r, ks)
  }

  /** No choice asks to remove `r`. */
  ghost predicate LeavesAlone(choices: seq<Choice>, r: string) {
    forall k :: 0 <= k < |choices| && choices[k].Begin? ==>
      !(choices[k].request.Unregister? && choices[k].request.user == r)
  }

  lemma {:induction false} RepeatLeaves(c: Choice, n: nat, r: string)
    requires c.Go?
    ensures LeavesAlone(Repeat(c, n), r)
  {
    if n > 0 { RepeatLeaves(c, n - 1, r); }
  }

  lemma {:induction false} DrainLeaves(picks: seq<Pick>, r: string)
    ensures LeavesAlone(DrainChoices(picks), r)
  {
    if picks != [] {
      RepeatLeaves(Go(true, 0, picks[0].id), 5, r);
      RepeatLeaves(Go(false, 0, picks[0].id), 4, r);
      DrainLeaves(picks[1..], r);
    }
  }

  lemma AloneLeaves(w: World, q: Request, r: string)
    requires !(q.Unregister? && q.user == r)
    ensures LeavesAlone(AloneChoices(w, q), r)
  {
    match q {
      case Send(_, _, _, reached, flag) =>
        var c := Go(reached, flag, 0);
        RepeatLeaves(c, 3, r);
        if q.recipient in w.store { RepeatLeaves(c, PassTurns(w.store[q.recipient].data, reached), r); }
      case Connect(_, _, _, picks) =>
        RepeatLeaves(Go(true, 0, 0), 3, r);
        RepeatLeaves(Go(true, 0, 0), 4, r);
        DrainLeaves(picks, r);
      case _ => RepeatLeaves(Go(true, 0, 0), 3, r);
    }
  }

  lemma StaysProper(n: nat, moves: seq<Move>, i: nat, choices: seq<Choice>, r: string, ks: set<nat>)
    requires Proper(n, moves, r, ks) && i < n && i in ks && LeavesAlone(choices, r)
    ensures Proper(n, moves + Alone(i, choices), r, ks)
  {
    var longer := moves + Alone(i, choices);
    forall k | 0 <= k < |longer| && longer[k].choice.Begin?
      ensures var q := longer[k].choice.request;
              !(q.Unregister? && q.user == r) && (q.Connect? && q.user == r ==> longer[k].thread in ks)
    {
      if k >= |moves| { assert longer[k] == Alone(i, choices)[k - |moves|]; }
    }
  }

  /** What the thread's lone stretch of choices comes to. */
  lemma Stretch(s0: State, moves: seq<Move>, i: nat, r: string, ks: set<nat>, choices: seq<Choice>, s: State, e: Effect)
    returns (longer: seq<Move>)
    requires Proper(|s0.threads|, moves, r, ks) && i < |s0.threads| && i in ks && Play(s0, moves) == s
    requires Solo(Effect(s.store, s.log, s.threads[i]), choices) == e && LeavesAlone(choices, r)
    ensures Proper(|s0.threads|, longer, r, ks)
    ensures Play(s0, longer) == State(e.store, e.log, s.threads[i := e.thread])
  {
    longer := Extend(s0, moves, i, choices);
    StaysProper(|s0.threads|, moves, i, choices, r, ks);
  }

  /** Thread `i` serves a whole request alone. */
  lemma Serves(s0: State, before: seq<Move>, i: nat, r: string, ks: set<nat>, q: Request) returns (moves: seq<Move>)
    requires Proper(|s0.threads|, before, r, ks) && i < |s0.threads| && i in ks && Play(s0, before).threads[i] == Idle
    requires var s := Play(s0, before); Enabled(World(s.store, s.log), q) && SelfDescribing(s.store)
    requires !(q.Unregister? && q.user == r)
    ensures Proper(|s0.threads|, moves, r, ks)
    ensures var s := Play(s0, before); var w := Exec(World(s.store, s.log), q);
            Play(s0, moves) == State(w.store, w.log, s.threads)
  {
    var s := Play(s0, before);
    var w := World(s.store, s.log);
    AloneIsWhole(w, q, s, i);
    PlayThen(s0, before, Alone(i, AloneChoices(w, q)));
    AloneLeaves(w, q, r);
    StaysProper(|s0.threads|, before, i, AloneChoices(w, q), r, ks);
    moves := before + Alone(i, AloneChoices(w, q));
  }

  /** Thread `i` runs CONNECT for `r` until its mailbox is open. */
  lemma ReaderGreets(s0: State, before: seq<Move>, i: nat, r: string, ks: set<nat>, portText: string)
    returns (moves: seq<Move>)
    requires Proper(|s0.threads|, before, r, ks) && i in ks && i < |s0.threads|
    requires var s := Play(s0, before); s.threads[i] == Idle && r in s.store
    ensures Proper(|s0.threads|, moves, r, ks)
    ensures var s := Play(s0, before); var w := DoGreet(World(s.store, s.log), r, portText, Some(7));
            r in w.store && Play(s0, moves) == State(w.store, w.log, s.threads[i := Listing(r, w.store[r].data)])
  {
    var s, q, c := Play(s0, before), Connect(r, portText, Some(7), []), Go(true, 0, 0);
    var w0 := World(s.store, s.log);
    var n := if ConnectCode(s.store, r, portText, Some(7)) == SRV_SUCCESS then 4 else 3;
    SoloGreet(w0, q);
    SoloBegin(w0, q, Repeat(c, n));
    moves := Extend(s0, before, i, [Begin(q)] + Repeat(c, n));
  }

  /** Thread `i` runs CONNECT for `r` until it has read the letter `l`. */
  lemma ReaderArrives(s0: State, before: seq<Move>, i: nat, r: string, ks: set<nat>, portText: string, l: Letter)
    returns (moves: seq<Move>)
    requires Proper(|s0.threads|, before, r, ks) && i in ks && i < |s0.threads| && l.to == r
    requires var s := Play(s0, before);
             s.threads[i] == Idle && r in s.store && s.store[r].mail == map[l.msg.id := l.msg]
    ensures Proper(|s0.threads|, moves, r, ks)
    ensures var s := Play(s0, before); var w := DoGreet(World(s.store, s.log), r, portText, Some(7));
            && r in w.store
            && Play(s0, moves) == State(w.store, w.log, s.threads[i := Rereading(r, w.store[r].data, l)])
  {
    var s, pick := Play(s0, before), Go(true, 0, l.msg.id);
    var w := DoGreet(World(s.store, s.log), r, portText, Some(7));
    moves := ReaderGreets(s0, before, i, r, ks, portText);
    var d := w.store[r].data;
    var e := Effect(w.store, w.log, Listing(r, d));
    SoloAgain(e, pick, 0);
    assert w.store[r].mail == s.store[r].mail && l.msg.id in w.store[r].mail && l == Letter(r, l.msg);
    assert Step1(e, pick) == Effect(w.store, w.log, Rereading(r, d, l));
    var s1 := State(w.store, w.log, s.threads[i := Listing(r, d)]);
    moves := Stretch(s0, moves, i, r, ks, Repeat(pick, 1), s1, Step1(e, pick));
    assert s.threads[i := Listing(r, d)][i := Rereading(r, d, l)] == s.threads[i := Rereading(r, d, l)];
  }

  /** Thread `i` delivers the letter it has read and deletes its file. */
  lemma ReaderForwards(s0: State, before: seq<Move>, i: nat, r: string, ks: set<nat>, l: Letter)
    returns (moves: seq<Move>)
    requires Proper(|s0.threads|, before, r, ks) && i in ks && i < |s0.threads|
    requires var s := Play(s0, before);
             s.threads[i].Rereading? && s.threads[i].user == r && s.threads[i].letter == l && r in s.store
    ensures Proper(|s0.threads|, moves, r, ks)
    ensures var s := Play(s0, before);
            Play(s0, moves) == State(SetMail(s.store, r, s.store[r].mail - {l.msg.id}), After(s.log, Delivered(l)),
                                     s.threads[i := AckingLetter(r, s.store[r].data, l)])
  {
    var s := Play(s0, before);
    SoloThree(Effect(s.store, s.log, s.threads[i]), Go(true, 0, 0));
    moves := Extend(s0, before, i, Repeat(Go(true, 0, 0), 3));
  }

  /** The letter of a user to itself under the first identifier. */
  function OwnFirst(r: string, text: string): Letter { Letter(r, Message(r, 1, text)) }

  function JustOne(r: string, d: UserData, l: Letter): Store { map[r := Account(d, map[l.msg.id := l.msg])] }

  const NEVER := Tally(0, 0, 0, 0, 0)

  /** A user registers and connects. */
  lemma ComesOnline(s0: State, i: nat, r: string, ks: set<nat>, portText: string, k: Letter) returns (moves: seq<Move>)
    requires i in ks && i < |s0.threads| && Resting(s0.threads) && s0.store == map[] && s0.log == Start
    requires StrToPort(portText).Some?
    ensures Proper(|s0.threads|, moves, r, ks)
    ensures var s, d := Play(s0, moves), UserData(Connected, 7, StrToPort(portText).value, 0);
            && s.store == map[r := Account(d, map[])] && s.threads == s0.threads
            && TallyOf(s.log, k) == NEVER
  {
    moves := Serves(s0, [], i, r, ks, Register(r, 0, 0));
    var h := Play(s0, moves).log;
    assert TallyOf(h, k) == NEVER;
    moves := Serves(s0, moves, i, r, ks, Connect(r, portText, Some(7), []));
  }

  /** What a SEND of an online user to itself that does not get through leaves. */
  lemma FilesOwn(s: Store, h: History, r: string, d: UserData, text: string, k: Letter)
    requires s == map[r := Account(d, map[])] && d.status == Connected && d.lastMsgId == 0
    ensures var w, l := Exec(World(s, h), Send(r, r, text, false, 0)), OwnFirst(r, text);
            && w.store == JustOne(r, d.(status := Disconnected, lastMsgId := 1), l)
            && TallyOf(w.log, k) == TallyOf(h, k).(accepted := TallyOf(h, k).accepted + if k == l then 1 else 0)
  {
    var l := OwnFirst(r, text);
    assert NewLetter(s, r, r, text) == l;
    var w := Exec(World(s, h), Send(r, r, text, false, 0));
    assert w.log == FiledHistory(h, l);
    FiledTally(h, l, k);
    assert w.store[r].mail == map[1 := l.msg];
  }

  function FiledHistory(h: History, l: Letter): History {
    After(After(After(After(h, Assigned(l.to)), Undelivered(l)), Stored(l)), Answered(l, SRV_SUCCESS))
  }

  lemma FiledTally(h: History, l: Letter, k: Letter)
    ensures var t := TallyOf(h, k);
            TallyOf(FiledHistory(h, l), k) == t.(accepted := t.accepted + if k == l then 1 else 0)
  {
    var h1 := After(h, Assigned(l.to));
    var h2 := After(h1, Undelivered(l));
    assert TallyOf(h1, k) == TallyOf(h, k);
    assert TallyOf(h2, k) == TallyOf(h, k);
    assert TallyOf(After(h2, Stored(l)), k) == TallyOf(h, k);
  }

  /** DISCONNECT up to its write, with the counter it has read. */
  lemma DisconnectReads(s0: State, before: seq<Move>, i: nat, r: string, ks: set<nat>) returns (moves: seq<Move>)
    requires Proper(|s0.threads|, before, r, ks) && i in ks && i < |s0.threads|
    requires var s := Play(s0, before);
             s.threads[i] == Idle && r in s.store && s.store[r].data.status == Connected
    ensures Proper(|s0.threads|, moves, r, ks)
    ensures var s := Play(s0, before);
            var d := UserData(Disconnected, 0, 0, s.store[r].data.lastMsgId);
            Play(s0, moves) == s.(threads := s.threads[i := WritingDisconnect(r, d)])
  {
    var c, s := Go(true, 0, 0), Play(s0, before);
    var e := Effect(s.store, s.log, Starting(Disconnect(r)));
    SoloBegin(World(s.store, s.log), Disconnect(r), Repeat(c, 1));
    SoloAgain(e, c, 0);
    moves := Stretch(s0, before, i, r, ks, [Begin(Disconnect(r))] + Repeat(c, 1), s, Step1(e, c));
  }

  /** DISCONNECT from its write on. */
  lemma DisconnectWrites(s0: State, before: seq<Move>, i: nat, r: string, ks: set<nat>, d: UserData)
    returns (moves: seq<Move>)
    requires Proper(|s0.threads|, before, r, ks) && i in ks && i < |s0.threads|
    requires var s := Play(s0, before); s.threads[i] == WritingDisconnect(r, d) && r in s.store
    ensures Proper(|s0.threads|, moves, r, ks)
    ensures var s := Play(s0, before);
            Play(s0, moves) == State(SetData(s.store, r, d), After(s.log, Replied(DISCONNECT, r, SRV_SUCCESS)),
                                     s.threads[i := Idle])
  {
    var c, s := Go(true, 0, 0), Play(s0, before);
    SoloTwo(Effect(s.store, s.log, s.threads[i]), c);
    moves := Extend(s0, before, i, Repeat(c, 2));
  }

  /** `r` alone is on file, online, with no identifier taken and nobody at work. */
  ghost predicate Afresh(s: State, r: string, d: UserData, k: Letter) {
    && s.store == map[r := Account(d, map[])] && d.status == Connected && d.lastMsgId == 0
    && Resting(s.threads) && TallyOf(s.log, k) == NEVER
  }

  /** A SEND files its letter between the read and the write of a DISCONNECT. */
  lemma Overtakes(s0: State, before: seq<Move>, i: nat, j: nat, r: string, ks: set<nat>, d: UserData,
                  text: string, k: Letter) returns (moves: seq<Move>)
    requires Proper(|s0.threads|, before, r, ks) && {i, j} <= ks && i < |s0.threads| && j < |s0.threads| && i != j
    requires Afresh(Play(s0, before), r, d, k) && k != OwnFirst(r, text)
    ensures Proper(|s0.threads|, moves, r, ks)
    ensures var s := Play(s0, moves);
            && s.store == JustOne(r, d.(status := Disconnected, lastMsgId := 1), OwnFirst(r, text))
            && s.threads == Play(s0, before).threads[i := WritingDisconnect(r, UserData(Disconnected, 0, 0, 0))]
            && TallyOf(s.log, k) == NEVER
  {
    var s := Play(s0, before);
    moves := DisconnectReads(s0, before, i, r, ks);
    FilesOwn(s.store, s.log, r, d, text, k);
    moves := Serves(s0, moves, j, r, ks, Send(r, r, text, false, 0));
  }

  /** A DISCONNECT that a SEND overtakes puts back the counter it has read:
      the letter stays filed under an identifier the counter has yet to reach. */
  lemma CounterRewound(s0: State, before: seq<Move>, i: nat, j: nat, r: string, ks: set<nat>, d: UserData,
                       text: string, k: Letter) returns (moves: seq<Move>)
    requires Proper(|s0.threads|, before, r, ks) && {i, j} <= ks && i < |s0.threads| && j < |s0.threads| && i != j
    requires Afresh(Play(s0, before), r, d, k) && k != OwnFirst(r, text)
    ensures Proper(|s0.threads|, moves, r, ks)
    ensures var s := Play(s0, moves);
            && s.store == JustOne(r, UserData(Disconnected, 0, 0, 0), OwnFirst(r, text))
            && s.threads == Play(s0, before).threads && TallyOf(s.log, k) == NEVER
  {
    var d0 := UserData(Disconnected, 0, 0, 0);
    moves := Overtakes(s0, before, i, j, r, ks, d, text, k);
    assert SetData(Play(s0, moves).store, r, d0) == JustOne(r, d0, OwnFirst(r, text));
    moves := DisconnectWrites(s0, moves, i, r, ks, d0);
  }

  /** A reader whose mailbox is empty acknowledges and ends. */
  lemma ReaderEnds(s0: State, before: seq<Move>, i: nat, r: string, ks: set<nat>, d: UserData, l: Letter)
    returns (moves: seq<Move>)
    requires Proper(|s0.threads|, before, r, ks) && i in ks && i < |s0.threads|
    requires var s := Play(s0, before);
             s.threads[i] == AckingLetter(r, d, l) && r in s.store && s.store[r].mail == map[]
    ensures Proper(|s0.threads|, moves, r, ks)
    ensures var s := Play(s0, before);
            Play(s0, moves) == State(s.store, After(s.log, AckTried(l)), s.threads[i := Idle])
  {
    var c, s := Go(true, 0, 0), Play(s0, before);
    SoloTwo(Effect(s.store, s.log, s.threads[i]), c);
    moves := Extend(s0, before, i, Repeat(c, 2));
  }

  /** Thread `i` delivers and deletes the one waiting letter and ends. */
  lemma ReaderFinishes(s0: State, before: seq<Move>, i: nat, r: string, ks: set<nat>, d: UserData, la: Letter)
    returns (moves: seq<Move>)
    requires Proper(|s0.threads|, before, r, ks) && i in ks && i < |s0.threads|
    requires var s := Play(s0, before);
             s.threads[i] == Rereading(r, d, la) && s.store == JustOne(r, d, la)
    ensures Proper(|s0.threads|, moves, r, ks)
    ensures var s := Play(s0, before);
            Play(s0, moves) == State(map[r := Account(d, map[])], After(After(s.log, Delivered(la)), AckTried(la)),
                                     s.threads[i := Idle])
  {
    moves := ReaderForwards(s0, before, i, r, ks, la);
    assert Play(s0, moves).store == map[r := Account(d, map[])];
    moves := ReaderEnds(s0, moves, i, r, ks, d, la);
  }

  /** Two CONNECTs read the letter; the first delivers and deletes it and ends. */
  lemma ReadTwice(s0: State, before: seq<Move>, i: nat, j: nat, r: string, ks: set<nat>, portText: string,
                  la: Letter, k: Letter) returns (moves: seq<Move>)
    requires Proper(|s0.threads|, before, r, ks) && {i, j} <= ks && i < |s0.threads| && j < |s0.threads| && i != j
    requires StrToPort(portText).Some? && la.to == r && k != la
    requires var s := Play(s0, before);
             && s.store == JustOne(r, UserData(Disconnected, 0, 0, 0), la) && s.threads == s0.threads
             && Resting(s.threads) && TallyOf(s.log, k) == NEVER
    ensures Proper(|s0.threads|, moves, r, ks)
    ensures var s, d := Play(s0, moves), UserData(Connected, 7, StrToPort(portText).value, 0);
            && s.store == map[r := Account(d, map[])] && s.threads == s0.threads[j := Rereading(r, d, la)]
            && TallyOf(s.log, k) == NEVER
  {
    var d := UserData(Connected, 7, StrToPort(portText).value, 0);
    moves := BothArrive(s0, before, i, j, r, ks, portText, la, k);
    var h, threads := Play(s0, moves).log, Play(s0, moves).threads;
    moves := ReaderFinishes(s0, moves, i, r, ks, d, la);
    assert threads[i := Idle] == s0.threads[j := Rereading(r, d, la)];
    assert TallyOf(After(h, Delivered(la)), k) == NEVER;
  }

  lemma BothArrive(s0: State, before: seq<Move>, i: nat, j: nat, r: string, ks: set<nat>, portText: string,
                   la: Letter, k: Letter) returns (moves: seq<Move>)
    requires Proper(|s0.threads|, before, r, ks) && {i, j} <= ks && i < |s0.threads| && j < |s0.threads| && i != j
    requires StrToPort(portText).Some? && la.to == r && k != la
    requires var s := Play(s0, before);
             && s.store == JustOne(r, UserData(Disconnected, 0, 0, 0), la) && s.threads == s0.threads
             && Resting(s.threads) && TallyOf(s.log, k) == NEVER
    ensures Proper(|s0.threads|, moves, r, ks)
    ensures var s, d := Play(s0, moves), UserData(Connected, 7, StrToPort(portText).value, 0);
            && s.store == JustOne(r, d, la) && TallyOf(s.log, k) == NEVER
            && s.threads == s0.threads[i := Rereading(r, d, la)][j := Rereading(r, d, la)]
  {
    var d := UserData(Connected, 7, StrToPort(portText).value, 0);
    moves := ReaderArrives(s0, before, i, r, ks, portText, la);
    var s := Play(s0, moves);
    assert s.store == JustOne(r, d, la) && TallyOf(s.log, k) == NEVER;
    moves := ReaderArrives(s0, moves, j, r, ks, portText, la);
  }

  /** Two draining threads are enough to lose a letter: from an empty database,
      a letter answered with success is deleted without ever being delivered. */
  lemma TwoReadersLose(s0: State, i: nat, j: nat, r: string, ks: set<nat>, portText: string, a: string, b: string)
    returns (moves: seq<Move>)
    requires s0.store == map[] && s0.log == Start && Resting(s0.threads)
    requires {i, j} <= ks && i < |s0.threads| && j < |s0.threads| && i != j && StrToPort(portText).Some? && a != b
    ensures Proper(|s0.threads|, moves, r, ks)
    ensures var s, lost := Play(s0, moves), OwnFirst(r, b);
            TallyOf(s.log, lost) == NEVER.(accepted := 1) && Pending(s.store, lost) == 0 && Lost(s0, s, lost)
  {
    var la, lost := OwnFirst(r, a), OwnFirst(r, b);
    var d := UserData(Connected, 7, StrToPort(portText).value, 0);
    moves := ComesOnline(s0, i, r, ks, portText, lost);
    moves := CounterRewound(s0, moves, i, j, r, ks, d, a, lost);
    moves := ReadTwice(s0, moves, i, j, r, ks, portText, la, lost);
    var s1 := Play(s0, moves);
    FilesOwn(s1.store, s1.log, r, d, b, lost);
    moves := Serves(s0, moves, i, r, ks, Send(r, r, b, false, 0));
    var s2 := Play(s0, moves);
    moves := ReaderForwards(s0, moves, j, r, ks, la);
    assert TallyOf(Play(s0, moves).log, lost) == TallyOf(s2.log, lost);
  }

  /** Whatever the size of the pool, letters are safe exactly when at most one
      thread is ever given CONNECTs for their recipient. */
  lemma DrainersIff(n: nat, ks: set<nat>)
    requires forall k :: k in ks ==> k < n
    ensures NeverLoses(n, ks) <==> |ks| <= 1
  {
    if |ks| <= 1 {
      forall s: State, moves: seq<Move>, r: string, l: Letter
             {:trigger Drainers(moves, r, ks), Lost(s, Play(s, moves), l)} |
          |s.threads| == n && Schedule(n, moves) && Initial(s) && Drainers(moves, r, ks) && l.to == r
        ensures !Lost(s, Play(s, moves), l)
      {
        CalmOrderly(s, moves, r, ks);
        NoSilentLoss(s, moves, r, l);
      }
    } else {
      var i :| i in ks;
      var others := ks - {i};
      assert |others| == |ks| - 1;
      var j :| j in others;
      var s0 := State(map[], Start, seq(n, _ => Idle));
      ReadPrinted(80);
      var moves := TwoReadersLose(s0, i, j, "r", ks, Print(80), "a", "b");
      assert Lost(s0, Play(s0, moves), OwnFirst("r", "b"));
    }
  }
}

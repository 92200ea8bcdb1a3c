/** Service threads interleaved at the finest step the code leaves whole: one
    call into the database, one network attempt, one reply. Nothing locks the
    database, so between two of its calls a thread carries local copies that
    others may overtake. */
module Interleaving {
  import opened Types
  import opened Protocol
  import opened Decimal

  /** Where a service thread is, with the locals it still uses. In a SEND,
      `earned` records that the thread has delivered or filed its letter; no
      step reads it. */
  datatype Thread =
    | Idle
    // srv_register, srv_unregister, srv_disconnect
    | CreatingTable(user: string, ip: int, port: int)
    | CheckingUser(user: string)
    | DeletingTable(user: string)
    | ReadingToDisconnect(user: string)
    | WritingDisconnect(user: string, data: UserData)
    | ReplyingTo(service: Service, user: string, code: int)
    // srv_connect and aux_connect_send_pend_msgs
    | ReadingToConnect(user: string, portText: string, peer: Option<int>)
    | WritingConnect(user: string, data: UserData)
    | ReplyingConnect(user: string, code: int)
    | OpeningMailbox(user: string)
    | Listing(user: string, data: UserData)
    | Rereading(user: string, data: UserData, letter: Letter)
    | Forwarding(user: string, data: UserData, letter: Letter)
    | DeletingLetter(user: string, data: UserData, letter: Letter)
    | AckingLetter(user: string, data: UserData, letter: Letter)
    | DroppingReader(user: string, data: UserData, letter: Letter)
    // srv_send
    | CheckingSender(sender: string, recipient: string, content: string)
    | CheckingRecipient(sender: string, recipient: string, content: string, senderExists: bool)
    | ReadingRecipient(sender: string, recipient: string, content: string)
    | TakingId(letter: Letter, data: UserData)
    | RereadingRecipient(letter: Letter, data: UserData)
    | Passing(letter: Letter, data: UserData)
    | DroppingRecipient(letter: Letter, data: UserData)
    | Storing(letter: Letter, data: UserData, code: int, earned: bool)
    | Answering(letter: Letter, data: UserData, code: int, earned: bool)
    | Acking(letter: Letter, data: UserData)
    | Refusing(sender: string, recipient: string, code: int)

  /** What the environment decides at a step: a request for an idle thread, or
      the outcome of a network attempt, the value the unset reply code reads
      as, and the file a directory lists first. */
  datatype Choice = Begin(request: Request) | Go(reached: bool, flag: int, pick: MsgId)

  datatype State = State(store: Store, log: History, threads: seq<Thread>)

  /** The effect of one step on the accounts, the history and the thread. */
  datatype Effect = Effect(store: Store, log: History, thread: Thread)

  function Starting(r: Request): Thread {
    match r
    case Register(u, ip, port) => CreatingTable(u, ip, port)
    case Unregister(u) => CheckingUser(u)
    case Disconnect(u) => ReadingToDisconnect(u)
    case Connect(u, portText, peer, _) => ReadingToConnect(u, portText, peer)
    case Send(sender, recipient, content, _, _) => CheckingSender(sender, recipient, content)
  }

  function Down(d: UserData): UserData { d.(status := Disconnected) }

  /** One step of the services that only touch one user's table. */
  function TableStep(s: Store, h: History, t: Thread): Effect {
    match t
    case CreatingTable(u, ip, port) =>
      if u in s then Effect(s, h, ReplyingTo(REGISTER, u, SRV_ERR_REG_USR_ALREADY_REG))
      else Effect(s[u := Account(UserData(Disconnected, ip, port, 0), map[])], h, ReplyingTo(REGISTER, u, SRV_SUCCESS))
    case CheckingUser(u) =>
      if u in s then Effect(s, h, DeletingTable(u))
      else Effect(s, h, ReplyingTo(UNREGISTER, u, SRV_ERR_UNREG_USR_NOT_EXISTS))
    case DeletingTable(u) =>
      if u in s then Effect(s - {u}, After(h, Erased(u, s[u].mail)), ReplyingTo(UNREGISTER, u, SRV_SUCCESS))
      else Effect(s, h, ReplyingTo(UNREGISTER, u, SRV_ERR_UNREG_ANY))
    case ReadingToDisconnect(u) =>
      if u !in s then Effect(s, h, ReplyingTo(DISCONNECT, u, SRV_ERR_DCN_USR_NOT_EXISTS))
      else if s[u].data.status == Disconnected then Effect(s, h, ReplyingTo(DISCONNECT, u, SRV_ERR_DCN_USR_NOT_CN))
      else Effect(s, h, WritingDisconnect(u, UserData(Disconnected, 0, 0, s[u].data.lastMsgId)))
    case WritingDisconnect(u, d) =>
      if u in s then Effect(SetData(s, u, d), h, ReplyingTo(DISCONNECT, u, SRV_SUCCESS))
      else Effect(s, h, ReplyingTo(DISCONNECT, u, SRV_ERR_DCN_USR_NOT_EXISTS))
    case ReplyingTo(service, u, code) => Effect(s, After(h, Replied(service, u, code)), Idle)
    case _ => Effect(s, h, t)
  }

  function ConnectStep(s: Store, h: History, t: Thread, c: Choice): Effect
    requires c.Go?
  {
    match t
    case ReadingToConnect(u, portText, peer) =>
      var code := ConnectCode(s, u, portText, peer);
      if code != SRV_SUCCESS then Effect(s, h, ReplyingConnect(u, code))
      else
        var d := UserData(Connected, peer.value, StrToPort(portText).value, s[u].data.lastMsgId);
        Effect(s, h, WritingConnect(u, d))
    case WritingConnect(u, d) =>
      if u in s then Effect(SetData(s, u, d), h, ReplyingConnect(u, SRV_SUCCESS))
      else Effect(s, h, ReplyingConnect(u, SRV_ERR_CN_USR_NOT_EXISTS))
    case ReplyingConnect(u, code) => Effect(s, After(h, Replied(CONNECT, u, code)), OpeningMailbox(u))
    case OpeningMailbox(u) => Effect(s, h, if u in s then Listing(u, s[u].data) else Idle)
    case Listing(u, d) =>
      if u in s && s[u].mail != map[] then
        if c.pick in s[u].mail then Effect(s, h, Rereading(u, d, Letter(u, s[u].mail[c.pick]))) else Effect(s, h, t)
      else Effect(s, h, Idle)
    case Rereading(u, d, l) =>
      if u in s then Effect(s, h, Forwarding(u, s[u].data, l)) else Effect(s, h, DroppingReader(u, Down(d), l))
    case Forwarding(u, d, l) =>
      if c.reached then Effect(s, After(h, Delivered(l)), DeletingLetter(u, d, l))
      else Effect(s, h, DroppingReader(u, Down(d), l))
    case DeletingLetter(u, d, l) =>
      Effect(if u in s then SetMail(s, u, s[u].mail - {l.msg.id}) else s, h, AckingLetter(u, d, l))
    case AckingLetter(u, d, l) => Effect(s, After(h, AckTried(l)), Listing(u, d))
    case DroppingReader(u, d, l) => Effect(if u in s then SetData(s, u, d) else s, After(h, Undelivered(l)), Idle)
    case _ => Effect(s, h, t)
  }

  function SendStep(s: Store, h: History, t: Thread, c: Choice): Effect
    requires c.Go?
  {
    match t
    case CheckingSender(from, to, text) => Effect(s, h, CheckingRecipient(from, to, text, from in s))
    case CheckingRecipient(from, to, text, senderExists) =>
      if senderExists && to in s then Effect(s, h, ReadingRecipient(from, to, text))
      else Effect(s, h, Refusing(from, to, SRV_ERR_SEND_USR_NOT_EXISTS))
    case ReadingRecipient(from, to, text) =>
      if to !in s then Effect(s, h, Refusing(from, to, SRV_ERR_SEND_ANY)) else
        var l := NewLetter(s, from, to, text);
        Effect(s, h, TakingId(l, s[to].data.(lastMsgId := l.msg.id)))
    case TakingId(l, d) =>
      if l.to !in s then Effect(s, h, Refusing(l.msg.sender, l.to, SRV_ERR_SEND_ANY)) else
        Effect(SetData(s, l.to, d), After(h, Assigned(l.to)),
               if d.status == Connected then RereadingRecipient(l, d) else Storing(l, d, SRV_SUCCESS, false))
    case RereadingRecipient(l, d) =>
      if l.to in s then Effect(s, h, Passing(l, s[l.to].data)) else Effect(s, h, DroppingRecipient(l, Down(d)))
    case Passing(l, d) =>
      if c.reached then Effect(s, After(h, Delivered(l)), Storing(l, d, SRV_SUCCESS, true))
      else Effect(s, h, DroppingRecipient(l, Down(d)))
    case DroppingRecipient(l, d) =>
      var h' := After(h, Undelivered(l));
      if l.to in s then Effect(SetData(s, l.to, d), h', Storing(l, d, SRV_SUCCESS, false))
      else Effect(s, h', Storing(l, d, SRV_ERR_SEND_ANY, false))
    case Storing(l, d, code, earned) =>
      var h' := if d.status == Connected && c.flag != SRV_SUCCESS then After(h, Stale(l)) else h;
      if d.status == Connected && c.flag == SRV_SUCCESS then Effect(s, h, Answering(l, d, code, earned))
      else if l.to in s && l.msg.id !in s[l.to].mail then
        Effect(SetMail(s, l.to, s[l.to].mail[l.msg.id := l.msg]), After(h', Stored(l)), Answering(l, d, code, true))
      else Effect(s, h', Answering(l, d, SRV_ERR_SEND_ANY, earned))
    case Answering(l, d, code, _) =>
      Effect(s, After(h, Answered(l, code)), if d.status == Connected then Acking(l, d) else Idle)
    case Acking(l, d) => Effect(s, After(h, AckTried(Letter(l.to, l.msg.(id := d.lastMsgId)))), Idle)
    case Refusing(from, to, code) => Effect(s, After(h, Refused(from, to, code)), Idle)
    case _ => Effect(s, h, t)
  }

  predicate InTableService(t: Thread) {
    || t.CreatingTable? || t.CheckingUser? || t.DeletingTable?
    || t.ReadingToDisconnect? || t.WritingDisconnect? || t.ReplyingTo?
  }

  predicate InConnect(t: Thread) {
    || t.ReadingToConnect? || t.WritingConnect? || t.ReplyingConnect? || t.OpeningMailbox? || t.Listing?
    || t.Rereading? || t.Forwarding? || t.DeletingLetter? || t.AckingLetter? || t.DroppingReader?
  }

  function ThreadStep(s: Store, h: History, t: Thread, c: Choice): Effect {
    match c
    case Begin(r) => Effect(s, h, if t == Idle then Starting(r) else t)
    case Go(_, _, _) =>
      if InTableService(t) then TableStep(s, h, t)
      else if InConnect(t) then ConnectStep(s, h, t, c)
      else SendStep(s, h, t, c)
  }

  function Next(s: State, i: nat, c: Choice): State
    requires i < |s.threads|
  {
    var e := ThreadStep(s.store, s.log, s.threads[i], c);
    State(e.store, e.log, s.threads[i := e.thread])
  }

  datatype Move = Move(thread: nat, choice: Choice)

  ghost predicate Schedule(n: nat, moves: seq<Move>) {
    forall k :: 0 <= k < |moves| ==> moves[k].thread < n
  }

  /** The state after a schedule of moves. */
  function Play(s: State, moves: seq<Move>): (s': State)
    requires forall k :: 0 <= k < |moves| ==> moves[k].thread < |s.threads|
    ensures |s'.threads| == |s.threads|
    decreases |moves|
  {
    if moves == [] then s else Play(Next(s, moves[0].thread, moves[0].choice), moves[1..])
  }

  /** Threads between requests. */
  ghost predicate Resting(threads: seq<Thread>) {
    forall i :: 0 <= i < |threads| ==> threads[i] == Idle
  }

  /** A server that has just started on some database. */
  ghost predicate Initial(s: State) {
    s.log == Start && SelfDescribing(s.store) && Resting(s.threads)
  }

  // The account of one letter in every schedule

  /** How many times the thread still counts the letter `l`: a SEND that has
      earned its success, and a reader that has delivered but not deleted. */
  function Claim(t: Thread, l: Letter): nat {
    match t
    case Storing(k, _, _, earned) => if earned && k == l then 1 else 0
    case Answering(k, _, _, earned) => if earned && k == l then 1 else 0
    case DeletingLetter(_, _, k) => if k == l then 1 else 0
    case _ => 0
  }

  function Claims(threads: seq<Thread>, l: Letter): nat {
    if threads == [] then 0 else Claim(threads[0], l) + Claims(threads[1..], l)
  }

  lemma {:induction false} ClaimsUpdate(threads: seq<Thread>, i: nat, t: Thread, l: Letter)
    requires i < |threads|
    ensures Claims(threads[i := t], l) + Claim(threads[i], l) == Claims(threads, l) + Claim(t, l)
  {
    if i > 0 {
      ClaimsUpdate(threads[1..], i - 1, t, l);
      assert threads[i := t][1..] == threads[1..][i - 1 := t];
    } else {
      assert threads[i := t][1..] == threads[1..];
    }
  }

  lemma {:induction false} RestingClaims(threads: seq<Thread>, l: Letter)
    requires Resting(threads)
    ensures Claims(threads, l) == 0
  {
    if threads != [] { RestingClaims(threads[1..], l); }
  }

  /** What is true of each thread on its own. */
  predicate Sane(t: Thread) {
    match t
    case Rereading(u, _, l) => l.to == u
    case Forwarding(u, _, l) => l.to == u
    case DeletingLetter(u, _, l) => l.to == u
    case TakingId(l, d) => d.lastMsgId == l.msg.id
    case Storing(_, d, _, earned) => d.status == Connected ==> earned
    case Answering(_, _, code, earned) => code == SRV_SUCCESS ==> earned
    case DroppingRecipient(_, d) => d.status == Disconnected
    case _ => true
  }

  /** The step deletes `l`'s file for a thread that delivered another letter. */
  predicate Misdeletes(s: Store, t: Thread, c: Choice, l: Letter) {
    && c.Go? && t.DeletingLetter? && t.letter != l
    && t.user == l.to && t.letter.msg.id == l.msg.id && Pending(s, l) == 1
  }

  /** The step leaves a copy of `l` that no acceptance counts: it files a letter
      already delivered, answers with an error a letter delivered or filed, or
      deletes a delivered letter whose file is gone. */
  predicate Spares(s: Store, t: Thread, c: Choice, l: Letter) {
    c.Go? &&
    match t
    case Storing(k, d, _, earned) =>
      && k == l && earned && (d.status == Connected ==> c.flag != SRV_SUCCESS)
      && l.to in s && l.msg.id !in s[l.to].mail
    case Answering(k, _, code, earned) => k == l && earned && code != SRV_SUCCESS
    case DeletingLetter(_, _, k) => k == l && Pending(s, l) == 0
    case _ => false
  }

  function One(b: bool): nat { if b then 1 else 0 }

  /** How often a schedule deletes `l`'s file for another letter. */
  function Misdeleted(s: State, moves: seq<Move>, l: Letter): nat
    requires forall k :: 0 <= k < |moves| ==> moves[k].thread < |s.threads|
    decreases |moves|
  {
    if moves == [] then 0 else
      var m := moves[0];
      One(Misdeletes(s.store, s.threads[m.thread], m.choice, l))
      + Misdeleted(Next(s, m.thread, m.choice), moves[1..], l)
  }

  /** How many copies of `l` a schedule leaves that no acceptance counts. */
  function Spared(s: State, moves: seq<Move>, l: Letter): nat
    requires forall k :: 0 <= k < |moves| ==> moves[k].thread < |s.threads|
    decreases |moves|
  {
    if moves == [] then 0 else
      var m := moves[0];
      One(Spares(s.store, s.threads[m.thread], m.choice, l))
      + Spared(Next(s, m.thread, m.choice), moves[1..], l)
  }

  /** The balance of one letter across one step of one thread. */
  ghost predicate StepBalances(s: Store, h: History, t: Thread, c: Choice, e: Effect, l: Letter) {
    var b, a := TallyOf(h, l), TallyOf(e.log, l);
    a.accepted + Claim(e.thread, l) + One(Spares(s, t, c, l)) + b.delivered + b.discarded + Pending(s, l)
    == b.accepted + Claim(t, l) + One(Misdeletes(s, t, c, l)) + a.delivered + a.discarded + Pending(e.store, l)
  }

  lemma TableStepBalances(s: Store, h: History, t: Thread, c: Choice, l: Letter)
    requires InTableService(t)
    ensures StepBalances(s, h, t, c, TableStep(s, h, t), l)
  {
    var e := TableStep(s, h, t);
    if e.log != h { assert TallyOf(e.log, l) == Count(TallyOf(h, l), e.log.event, l); }
  }

  /** Deleting a file: the thread's own letter, another one, or nothing. */
  lemma DeletionBalances(s: Store, h: History, t: Thread, c: Choice, l: Letter)
    requires t.DeletingLetter? && c.Go? && Sane(t)
    ensures StepBalances(s, h, t, c, ConnectStep(s, h, t, c), l)
  {
  }

  /** A delivery is claimed until its file is deleted. */
  lemma ForwardingBalances(s: Store, h: History, t: Thread, c: Choice, l: Letter)
    requires t.Forwarding? && c.Go?
    ensures StepBalances(s, h, t, c, ConnectStep(s, h, t, c), l)
  {
    if c.reached {
      assert TallyOf(After(h, Delivered(t.letter)), l) == Count(TallyOf(h, l), Delivered(t.letter), l);
    }
  }

  lemma ConnectStepBalances(s: Store, h: History, t: Thread, c: Choice, l: Letter)
    requires InConnect(t) && c.Go? && Sane(t)
    ensures StepBalances(s, h, t, c, ConnectStep(s, h, t, c), l)
  {
    var e := ConnectStep(s, h, t, c);
    if t.DeletingLetter? {
      DeletionBalances(s, h, t, c, l);
    } else if t.Forwarding? {
      ForwardingBalances(s, h, t, c, l);
    } else if e.log != h {
      assert TallyOf(e.log, l) == Count(TallyOf(h, l), e.log.event, l);
    }
  }

  /** Storing: the letter is filed, found unnecessary, or refused. */
  lemma StoringBalances(s: Store, h: History, t: Thread, c: Choice, l: Letter)
    requires t.Storing? && c.Go? && Sane(t)
    ensures StepBalances(s, h, t, c, SendStep(s, h, t, c), l)
  {
    var e := SendStep(s, h, t, c);
    var h' := if t.data.status == Connected && c.flag != SRV_SUCCESS then After(h, Stale(t.letter)) else h;
    assert TallyOf(h', l).(stale := 0) == TallyOf(h, l).(stale := 0);
    if e.log != h' { assert TallyOf(e.log, l) == Count(TallyOf(h', l), Stored(t.letter), l); }
  }

  /** The first reply cashes the claim, or spares it. */
  lemma AnsweringBalances(s: Store, h: History, t: Thread, c: Choice, l: Letter)
    requires t.Answering? && c.Go? && Sane(t)
    ensures StepBalances(s, h, t, c, SendStep(s, h, t, c), l)
  {
    var e := Answered(t.letter, t.code);
    assert TallyOf(After(h, e), l) == Count(TallyOf(h, l), e, l);
  }

  lemma SendStepBalances(s: Store, h: History, t: Thread, c: Choice, l: Letter)
    requires c.Go? && Sane(t) && !InTableService(t) && !InConnect(t)
    ensures StepBalances(s, h, t, c, SendStep(s, h, t, c), l)
  {
    var e := SendStep(s, h, t, c);
    if t.Storing? {
      StoringBalances(s, h, t, c, l);
    } else if t.Answering? {
      AnsweringBalances(s, h, t, c, l);
    } else if e.log != h {
      assert TallyOf(e.log, l) == Count(TallyOf(h, l), e.log.event, l);
    }
  }

  lemma ThreadStepBalances(s: Store, h: History, t: Thread, c: Choice, l: Letter)
    requires Sane(t)
    ensures StepBalances(s, h, t, c, ThreadStep(s, h, t, c), l)
  {
    if c.Go? {
      if InTableService(t) { TableStepBalances(s, h, t, c, l); }
      else if InConnect(t) { ConnectStepBalances(s, h, t, c, l); }
      else { SendStepBalances(s, h, t, c, l); }
    }
  }

  lemma ThreadStepSane(s: Store, h: History, t: Thread, c: Choice)
    requires Sane(t)
    ensures Sane(ThreadStep(s, h, t, c).thread)
  {
    if c.Go? {
      if InTableService(t) {
        assert Sane(TableStep(s, h, t).thread);
      } else if InConnect(t) {
        assert Sane(ConnectStep(s, h, t, c).thread);
      } else {
        assert Sane(SendStep(s, h, t, c).thread);
      }
    }
  }

  /** Conservation in every schedule of any number of threads, with no
      discipline at all: what was pending, accepted, still claimed or spared is
      what was delivered, discarded, is pending now, or was deleted for another
      letter. */
  lemma {:induction false} EveryScheduleBalances(s: State, moves: seq<Move>, l: Letter)
    requires Schedule(|s.threads|, moves) && forall i :: 0 <= i < |s.threads| ==> Sane(s.threads[i])
    ensures var s' := Play(s, moves); var b, a := TallyOf(s.log, l), TallyOf(s'.log, l);
            a.accepted + Claims(s'.threads, l) + Spared(s, moves, l) + b.delivered + b.discarded + Pending(s.store, l)
            == b.accepted + Claims(s.threads, l) + Misdeleted(s, moves, l)
               + a.delivered + a.discarded + Pending(s'.store, l)
    decreases |moves|
  {
    if moves != [] {
      var m := moves[0];
      var t := s.threads[m.thread];
      ThreadStepSane(s.store, s.log, t, m.choice);
      ThreadStepBalances(s.store, s.log, t, m.choice, l);
      var s1 := Next(s, m.thread, m.choice);
      ClaimsUpdate(s.threads, m.thread, s1.threads[m.thread], l);
      EveryScheduleBalances(s1, moves[1..], l);
    }
  }

  /** Fewer copies of `l` were delivered, discarded or are pending than were
      pending at first or accepted since. */
  ghost predicate Lost(s: State, s': State, l: Letter) {
    var t := TallyOf(s'.log, l);
    Pending(s.store, l) + t.accepted > t.delivered + t.discarded + Pending(s'.store, l)
  }

  /** The one way to lose a letter: a letter is lost exactly when its file was
      deleted for other letters more often than spare copies, and deliveries or
      filings not yet settled, make up for. */
  lemma LossIff(s: State, moves: seq<Move>, l: Letter)
    requires Schedule(|s.threads|, moves) && s.log == Start && Resting(s.threads)
    ensures var s' := Play(s, moves);
            Lost(s, s', l) <==> Misdeleted(s, moves, l) > Spared(s, moves, l) + Claims(s'.threads, l)
  {
    RestingClaims(s.threads, l);
    EveryScheduleBalances(s, moves, l);
  }

  // A discipline under which nothing is lost

  /** The thread has read a letter of `r`'s mailbox and not yet deleted it. */
  predicate Holds(t: Thread, r: string) {
    (t.Rereading? || t.Forwarding? || t.DeletingLetter?) && t.user == r
  }

  /** At most one thread at a time is handling a letter read from `r`'s mailbox. */
  ghost predicate OneReader(threads: seq<Thread>, r: string) {
    forall i, j :: 0 <= i < |threads| && 0 <= j < |threads| && Holds(threads[i], r) && Holds(threads[j], r) ==> i == j
  }

  /** No move of the schedule removes `r`'s table while a letter of it is being
      handled, and letters of it are handled one at a time. */
  ghost predicate Orderly(s: State, moves: seq<Move>, r: string)
    requires Schedule(|s.threads|, moves)
    decreases |moves|
  {
    && OneReader(s.threads, r)
    && (moves != [] ==>
          var m := moves[0];
          && (m.choice.Go? && s.threads[m.thread] == DeletingTable(r) ==>
                forall i :: 0 <= i < |s.threads| ==> !Holds(s.threads[i], r))
          && Orderly(Next(s, m.thread, m.choice), moves[1..], r))
  }

  /** A letter being handled from `r`'s mailbox is still filed there. */
  predicate StillThere(s: Store, t: Thread, r: string) {
    Holds(t, r) ==> Pending(s, t.letter) == 1
  }

  ghost predicate Safe(s: State, r: string) {
    && SelfDescribing(s.store)
    && (forall i :: 0 <= i < |s.threads| ==> Sane(s.threads[i]) && StillThere(s.store, s.threads[i], r))
  }

  lemma ThreadStepDescribes(s: Store, h: History, t: Thread, c: Choice)
    requires SelfDescribing(s)
    ensures SelfDescribing(ThreadStep(s, h, t, c).store)
  {
  }

  /** A letter another thread is handling stays filed unless this thread is
      handling one too or removes the table. */
  lemma OthersStillThere(s: Store, h: History, t: Thread, c: Choice, other: Thread, r: string)
    requires StillThere(s, other, r) && Holds(other, r) && Sane(other) && !Holds(t, r)
    requires !(c.Go? && t == DeletingTable(r))
    ensures StillThere(ThreadStep(s, h, t, c).store, other, r)
  {
  }

  /** A thread that starts or goes on handling a letter has it before it. */
  lemma OwnStillThere(s: Store, h: History, t: Thread, c: Choice, r: string)
    requires StillThere(s, t, r) && SelfDescribing(s) && Sane(t)
    ensures StillThere(ThreadStep(s, h, t, c).store, ThreadStep(s, h, t, c).thread, r)
  {
    if c.Go? {
      if InTableService(t) {
        TableStepCalm(s, h, t, r);
      } else if !InConnect(t) {
        SendStepCalm(s, h, t, c);
      }
    }
  }

  lemma StepSafe(s: State, i: nat, c: Choice, r: string)
    requires i < |s.threads| && Safe(s, r) && OneReader(s.threads, r)
    requires c.Go? && s.threads[i] == DeletingTable(r) ==> forall j :: 0 <= j < |s.threads| ==> !Holds(s.threads[j], r)
    ensures Safe(Next(s, i, c), r)
    ensures forall l: Letter :: l.to == r ==> !Misdeletes(s.store, s.threads[i], c, l)
  {
    var t, s' := s.threads[i], Next(s, i, c);
    ThreadStepDescribes(s.store, s.log, t, c);
    assert Sane(t) && StillThere(s.store, t, r);
    forall j | 0 <= j < |s'.threads| ensures Sane(s'.threads[j]) && StillThere(s'.store, s'.threads[j], r) {
      if j == i {
        ThreadStepSane(s.store, s.log, t, c);
        OwnStillThere(s.store, s.log, t, c, r);
      } else if Holds(s.threads[j], r) {
        OthersStillThere(s.store, s.log, t, c, s.threads[j], r);
      }
    }
  }

  lemma {:induction false} OrderlyDeletes(s: State, moves: seq<Move>, r: string, l: Letter)
    requires Schedule(|s.threads|, moves) && Orderly(s, moves, r) && Safe(s, r) && l.to == r
    ensures Misdeleted(s, moves, l) == 0
    decreases |moves|
  {
    if moves != [] {
      var m := moves[0];
      StepSafe(s, m.thread, m.choice, r);
      OrderlyDeletes(Next(s, m.thread, m.choice), moves[1..], r, l);
    }
  }

  /** No silent loss: in every interleaving of any number of service threads
      that handles `r`'s waiting letters one at a time and does not remove `r`
      in between, whatever the network does and whatever the unset code reads,
      no letter to `r` is lost. */
  lemma NoSilentLoss(s: State, moves: seq<Move>, r: string, l: Letter)
    requires Schedule(|s.threads|, moves) && Initial(s) && Orderly(s, moves, r) && l.to == r
    ensures !Lost(s, Play(s, moves), l)
  {
    OrderlyDeletes(s, moves, r, l);
    LossIff(s, moves, l);
  }

  // Who may drain

  predicate Draining(t: Thread, r: string) { InConnect(t) && t.user == r }

  predicate Removing(t: Thread, r: string) { (t.CheckingUser? || t.DeletingTable?) && t.user == r }

  /** Nobody asks to remove `r`, and only the threads `ks` are given CONNECTs for `r`. */
  ghost predicate Drainers(moves: seq<Move>, r: string, ks: set<nat>) {
    forall n :: 0 <= n < |moves| && moves[n].choice.Begin? ==>
      var q := moves[n].choice.request;
      !(q.Unregister? && q.user == r) && (q.Connect? && q.user == r ==> moves[n].thread in ks)
  }

  ghost predicate Calm(s: State, r: string, ks: set<nat>) {
    && (forall i :: 0 <= i < |s.threads| ==> !Removing(s.threads[i], r) && (Draining(s.threads[i], r) ==> i in ks))
    && (forall l: Letter :: l.to == r ==> TallyOf(s.log, l).discarded == 0)
  }

  /** A set of at most one element. */
  lemma SoleElement(ks: set<nat>, i: nat, j: nat)
    requires |ks| <= 1 && i in ks && j in ks
    ensures i == j
  {
    var others := ks - {i};
    assert |others| == |ks| - 1;
    assert others == {};
    assert j !in others;
  }

  lemma ThreadStepCalm(s: Store, h: History, t: Thread, c: Choice, r: string)
    requires !Removing(t, r)
    requires c.Begin? ==> !(c.request.Unregister? && c.request.user == r)
    ensures var t' := ThreadStep(s, h, t, c).thread;
            && !Removing(t', r)
            && (Draining(t', r) ==> Draining(t, r) || (c.Begin? && c.request.Connect? && c.request.user == r))
  {
    if c.Go? {
      if InTableService(t) {
        TableStepCalm(s, h, t, r);
      } else if InConnect(t) {
        ConnectStepCalm(s, h, t, c, r);
      } else {
        SendStepCalm(s, h, t, c);
      }
    }
  }

  lemma TableStepCalm(s: Store, h: History, t: Thread, r: string)
    requires InTableService(t)
    ensures var t' := TableStep(s, h, t).thread; !InConnect(t') && (Removing(t', r) ==> Removing(t, r))
  {
  }

  lemma ConnectStepCalm(s: Store, h: History, t: Thread, c: Choice, r: string)
    requires InConnect(t) && c.Go?
    ensures var t' := ConnectStep(s, h, t, c).thread; !Removing(t', r) && (Draining(t', r) ==> Draining(t, r))
  {
  }

  lemma SendStepCalm(s: Store, h: History, t: Thread, c: Choice)
    requires !InTableService(t) && !InConnect(t) && c.Go?
    ensures var t' := SendStep(s, h, t, c).thread; !InTableService(t') && !InConnect(t')
  {
  }

  lemma ThreadStepDiscards(s: Store, h: History, t: Thread, c: Choice, l: Letter)
    requires !Removing(t, l.to)
    ensures TallyOf(ThreadStep(s, h, t, c).log, l).discarded == TallyOf(h, l).discarded
  {
    if c.Go? {
      if InTableService(t) {
        AtMostTwo(h, TableStep(s, h, t).log, l);
      } else if InConnect(t) {
        AtMostTwo(h, ConnectStep(s, h, t, c).log, l);
      } else {
        AtMostTwo(h, SendStep(s, h, t, c).log, l);
      }
    }
  }

  /** A history longer by at most two events, none of them a removal of `l`'s
      mailbox, counts no more discards. */
  lemma AtMostTwo(h: History, log: History, l: Letter)
    requires log == h || (log.After? && (log.past == h || (log.past.After? && log.past.past == h)))
    requires log != h ==> !(log.event.Erased? && log.event.user == l.to)
    requires log != h && log.past != h ==> !(log.past.event.Erased? && log.past.event.user == l.to)
    ensures TallyOf(log, l).discarded == TallyOf(h, l).discarded
  {
    if log != h {
      assert TallyOf(log, l) == Count(TallyOf(log.past, l), log.event, l);
      if log.past != h { assert TallyOf(log.past, l) == Count(TallyOf(h, l), log.past.event, l); }
    }
  }

  lemma {:induction false} CalmOrderly(s: State, moves: seq<Move>, r: string, ks: set<nat>)
    requires Schedule(|s.threads|, moves) && Drainers(moves, r, ks) && Calm(s, r, ks) && |ks| <= 1
    ensures Orderly(s, moves, r) && Calm(Play(s, moves), r, ks)
    decreases |moves|
  {
    forall i, j | 0 <= i < |s.threads| && 0 <= j < |s.threads| && Holds(s.threads[i], r) && Holds(s.threads[j], r)
      ensures i == j
    {
      SoleElement(ks, i, j);
    }
    if moves != [] {
      var m := moves[0];
      var s' := Next(s, m.thread, m.choice);
      ThreadStepCalm(s.store, s.log, s.threads[m.thread], m.choice, r);
      forall l: Letter | l.to == r ensures TallyOf(s'.log, l).discarded == 0 {
        ThreadStepDiscards(s.store, s.log, s.threads[m.thread], m.choice, l);
      }
      assert Drainers(moves[1..], r, ks) by {
        forall n | 0 <= n < |moves[1..]| ensures moves[1..][n] == moves[n + 1] {}
      }
      CalmOrderly(s', moves[1..], r, ks);
    }
  }

  /** While nobody asks to remove `r`, and at most one thread is given CONNECTs
      for `r`, every letter that was pending for `r` or whose SEND was answered
      with success has been delivered or is still in the mailbox. */
  lemma DeliveredOrPending(s: State, moves: seq<Move>, r: string, ks: set<nat>, l: Letter)
    requires Schedule(|s.threads|, moves) && Initial(s) && Drainers(moves, r, ks) && |ks| <= 1 && l.to == r
    ensures var s' := Play(s, moves); var t := TallyOf(s'.log, l);
            Pending(s.store, l) + t.accepted <= t.delivered + Pending(s'.store, l)
  {
    CalmOrderly(s, moves, r, ks);
    NoSilentLoss(s, moves, r, l);
  }

  /** With `n` threads of which only those in `ks` are given CONNECTs for a
      user nobody removes, none of that user's letters is ever lost. */
  ghost predicate NeverLoses(n: nat, ks: set<nat>) {
    forall s: State, moves: seq<Move>, r: string, l: Letter
           {:trigger Drainers(moves, r, ks), Lost(s, Play(s, moves), l)} ::
      |s.threads| == n && Schedule(n, moves) && Initial(s) && Drainers(moves, r, ks) && l.to == r ==>
        !Lost(s, Play(s, moves), l)
  }
}

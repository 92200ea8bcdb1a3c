/** The protocol around the connection queue (app/server.c), one statement at
    a time: an accept loop and a pool of service threads, a mutex, and two
    condition variables signalled only when the queue stops being empty or
    full. Waiting releases the mutex; a signal wakes at least one waiter if
    there is one; a waiter may also wake for no reason. */
module QueueProtocol {
  import opened ConnectionQueue

  /** Where the accept loop is, with the socket it has not yet queued. */
  datatype Producer =
    | Accepting
    | Locking(sock: int)
    | Checking(sock: int)
    | Asleep(sock: int)
    | Woken(sock: int)
    | Filling(sock: int)
    | Advancing(sock: int)
    | Counting(sock: int)
    | Signalling
    | Unlocking

  /** Where a service thread is, with the socket it has taken. */
  datatype Consumer =
    | CLocking
    | CChecking
    | CAsleep
    | CWoken
    | CTaking
    | CAdvancing(sock: int)
    | CCounting(sock: int)
    | CSignalling(sock: int)
    | CUnlocking(sock: int)
    | CServing(sock: int)

  datatype Lock = Free | ByProducer | ByConsumer(i: nat)

  /** The sockets accepted, dequeued and served so far, oldest first. */
  datatype State = State(ring: Ring, lock: Lock, producer: Producer, consumers: seq<Consumer>,
                         accepted: seq<int>, dequeued: seq<int>, served: seq<int>)

  datatype Action =
    | Accept(sock: int)
    | Produce(woken: set<nat>)
    | Consume(i: nat)
    | WakeProducer
    | WakeConsumer(i: nat)

  predicate InSection(p: Producer) {
    p.Checking? || p.Filling? || p.Advancing? || p.Counting? || p.Signalling? || p.Unlocking?
  }

  predicate CInSection(c: Consumer) {
    c.CChecking? || c.CTaking? || c.CAdvancing? || c.CCounting? || c.CSignalling? || c.CUnlocking?
  }

  function Sleepers(cs: seq<Consumer>): set<nat> { set i: nat | i < |cs| && cs[i] == CAsleep }

  /** `pthread_cond_signal`: at least one sleeper, if there is any. */
  predicate WakesSome(cs: seq<Consumer>, woken: set<nat>) {
    woken <= Sleepers(cs) && (Sleepers(cs) != {} ==> woken != {})
  }

  function Rouse(cs: seq<Consumer>, woken: set<nat>): seq<Consumer> {
    seq(|cs|, i requires 0 <= i < |cs| => if i in woken then CWoken else cs[i])
  }

  predicate Enabled(s: State, a: Action) {
    match a
    case Accept(_) => s.producer == Accepting
    case Produce(woken) =>
      && !s.producer.Accepting? && !s.producer.Asleep?
      && (s.producer.Locking? || s.producer.Woken? ==> s.lock == Free)
      && (if s.producer.Signalling? && s.ring.size == 1 then WakesSome(s.consumers, woken) else woken == {})
    case Consume(i) =>
      && i < |s.consumers| && s.consumers[i] != CAsleep
      && (s.consumers[i].CLocking? || s.consumers[i].CWoken? ==> s.lock == Free)
    case WakeProducer => s.producer.Asleep?
    case WakeConsumer(i) => i < |s.consumers| && s.consumers[i] == CAsleep
  }

  function ProducerStep(s: State, woken: set<nat>): State
    requires |s.ring.cells| == MAX_CONN_BACKLOG && 0 <= s.ring.producerPos < MAX_CONN_BACKLOG
  {
    var r := s.ring;
    match s.producer
    case Locking(x) => s.(producer := Checking(x), lock := ByProducer)
    case Woken(x) => s.(producer := Checking(x), lock := ByProducer)
    case Checking(x) =>
      if r.size == MAX_CONN_BACKLOG then s.(producer := Asleep(x), lock := Free) else s.(producer := Filling(x))
    case Filling(x) => s.(producer := Advancing(x), ring := r.(cells := r.cells[r.producerPos := x]))
    case Advancing(x) => s.(producer := Counting(x), ring := r.(producerPos := Around(r.producerPos, 1)))
    case Counting(x) => s.(producer := Signalling, ring := r.(size := r.size + 1))
    case Signalling => s.(producer := Unlocking, consumers := Rouse(s.consumers, woken))
    case Unlocking => s.(producer := Accepting, lock := Free)
    case _ => s
  }

  function ConsumerStep(s: State, i: nat): State
    requires i < |s.consumers|
    requires |s.ring.cells| == MAX_CONN_BACKLOG && 0 <= s.ring.servicePos < MAX_CONN_BACKLOG
  {
    var r := s.ring;
    match s.consumers[i]
    case CLocking => Put(s, i, CChecking).(lock := ByConsumer(i))
    case CWoken => Put(s, i, CChecking).(lock := ByConsumer(i))
    case CChecking => if r.size == 0 then Put(s, i, CAsleep).(lock := Free) else Put(s, i, CTaking)
    case CTaking => Put(s, i, CAdvancing(r.cells[r.servicePos]))
    case CAdvancing(x) => Put(s, i, CCounting(x)).(ring := r.(servicePos := Around(r.servicePos, 1)))
    case CCounting(x) => Put(s, i, CSignalling(x)).(ring := r.(size := r.size - 1), dequeued := s.dequeued + [x])
    case CSignalling(x) =>
      var rouses := r.size == MAX_CONN_BACKLOG - 1 && s.producer.Asleep?;
      Put(s, i, CUnlocking(x)).(producer := if rouses then Woken(s.producer.sock) else s.producer)
    case CUnlocking(x) => Put(s, i, CServing(x)).(lock := Free)
    case CServing(x) => Put(s, i, CLocking).(served := s.served + [x])
    case CAsleep => s
  }

  function Put(s: State, i: nat, c: Consumer): State
    requires i < |s.consumers|
  {
    s.(consumers := s.consumers[i := c])
  }

  function Do(s: State, a: Action): State
    requires Enabled(s, a) && Shaped(s.ring)
  {
    match a
    case Accept(x) => s.(producer := Locking(x), accepted := s.accepted + [x])
    case Produce(woken) => ProducerStep(s, woken)
    case Consume(i) => ConsumerStep(s, i)
    case WakeProducer => s.(producer := Woken(s.producer.sock))
    case WakeConsumer(i) => Put(s, i, CWoken)
  }

  /** An empty queue, an idle accept loop, and any positive number of service threads. */
  ghost predicate Initial(s: State) {
    && |s.ring.cells| == MAX_CONN_BACKLOG && s.ring.size == s.ring.servicePos == s.ring.producerPos == 0
    && s.lock == Free && s.producer == Accepting
    && |s.consumers| > 0 && (forall i :: 0 <= i < |s.consumers| ==> s.consumers[i] == CLocking)
    && s.accepted == [] && s.dequeued == [] && s.served == []
  }

  // Invariants

  predicate HasSocket(p: Producer) { !p.Accepting? && !p.Signalling? && !p.Unlocking? }

  /** How many sockets have been counted into the queue. */
  function Enqueued(s: State): int { |s.accepted| - if HasSocket(s.producer) then 1 else 0 }

  /** The consumer inside the mutex; one outside it when there is none. */
  function Holder(s: State): Consumer {
    if s.lock.ByConsumer? && s.lock.i < |s.consumers| then s.consumers[s.lock.i] else CLocking
  }

  ghost predicate Exclusive(s: State) {
    && (InSection(s.producer) <==> s.lock == ByProducer)
    && (forall i: nat :: i < |s.consumers| ==> (CInSection(s.consumers[i]) <==> s.lock == ByConsumer(i)))
    && (s.lock.ByConsumer? ==> s.lock.i < |s.consumers|)
  }

  /** The ring holds the accepted sockets between the dequeued ones and the one
      in the accept loop's hands. */
  ghost predicate Consistent(s: State) {
    && Shaped(s.ring)
    && var e, d, r := Enqueued(s), |s.dequeued|, s.ring;
    && 0 <= d <= e <= |s.accepted| && r.size == e - d
    && (HasSocket(s.producer) ==> e < |s.accepted| && s.accepted[e] == s.producer.sock)
    && r.producerPos == (if s.producer.Counting? then Around(e % MAX_CONN_BACKLOG, 1) else e % MAX_CONN_BACKLOG)
    && r.servicePos == (if Holder(s).CCounting? then Around(d % MAX_CONN_BACKLOG, 1) else d % MAX_CONN_BACKLOG)
    && s.dequeued == s.accepted[..d]
    && Contents(r.cells, d % MAX_CONN_BACKLOG, r.size) == s.accepted[d..e]
  }

  /** What the statement about to run may rely on. */
  ghost predicate Staged(s: State) {
    && Shaped(s.ring)
    && (s.producer.Filling? || s.producer.Advancing? || s.producer.Counting? ==> s.ring.size < MAX_CONN_BACKLOG)
    && (s.producer.Advancing? || s.producer.Counting? ==>
          s.ring.cells[Enqueued(s) % MAX_CONN_BACKLOG] == s.producer.sock)
    && (s.producer.Signalling? ==> s.ring.size > 0)
    && (forall i :: 0 <= i < |s.consumers| ==> ConsumerStaged(s, s.consumers[i]))
  }

  ghost predicate ConsumerStaged(s: State, c: Consumer) {
    && (c.CTaking? || c.CAdvancing? || c.CCounting? ==> s.ring.size > 0)
    && (c.CAdvancing? || c.CCounting? ==> |s.dequeued| < |s.accepted| && c.sock == s.accepted[|s.dequeued|])
    && (c.CSignalling? ==> s.ring.size < MAX_CONN_BACKLOG)
  }

  ghost predicate AllAsleep(s: State) { forall i :: 0 <= i < |s.consumers| ==> s.consumers[i] == CAsleep }

  /** Nobody sleeps through the event it waits for: a sleeping accept loop means
      a full queue, or a consumer about to signal; sockets waiting while all
      service threads sleep means the accept loop is about to signal. */
  ghost predicate Awake(s: State) {
    && |s.consumers| > 0
    && (s.producer.Asleep? ==>
          s.ring.size == MAX_CONN_BACKLOG || (s.ring.size == MAX_CONN_BACKLOG - 1 && Holder(s).CSignalling?))
    && (s.ring.size > 0 && AllAsleep(s) ==> s.ring.size == 1 && s.producer == Signalling)
  }

  ghost predicate Inv(s: State) { Exclusive(s) && Consistent(s) && Staged(s) && Awake(s) }

  lemma InitialInv(s: State)
    requires Initial(s)
    ensures Inv(s)
  {
  }

  lemma ProducerExclusive(s: State, woken: set<nat>)
    requires Enabled(s, Produce(woken)) && Inv(s)
    ensures Exclusive(ProducerStep(s, woken))
  {
  }

  lemma ConsumerExclusive(s: State, i: nat)
    requires Enabled(s, Consume(i)) && Inv(s)
    ensures Exclusive(ConsumerStep(s, i))
  {
  }

  /** The cell about to be filled lies just behind the queued sockets. */
  lemma FillConsistent(s: State)
    requires Inv(s) && s.producer.Filling?
    ensures Consistent(ProducerStep(s, {}))
  {
    var r, d := s.ring, |s.dequeued|;
    PositionsLater(d, r.size);
    ContentsStore(r.cells, d % MAX_CONN_BACKLOG, r.size, s.producer.sock);
  }

  /** Counting the filled cell in appends it to the queued sockets. */
  lemma CountConsistent(s: State)
    requires Inv(s) && s.producer.Counting?
    ensures Consistent(ProducerStep(s, {}))
  {
    var r, d, e := s.ring, |s.dequeued|, Enqueued(s);
    PositionsLater(d, r.size);
    assert r.cells[e % MAX_CONN_BACKLOG := s.producer.sock] == r.cells;
    ContentsStore(r.cells, d % MAX_CONN_BACKLOG, r.size, s.producer.sock);
    assert s.accepted[d..e + 1] == s.accepted[d..e] + [s.producer.sock];
    PositionsLater(e, 1);
  }

  lemma ProducerConsistent(s: State, woken: set<nat>)
    requires Enabled(s, Produce(woken)) && Inv(s)
    ensures Consistent(ProducerStep(s, woken))
  {
    if s.producer.Filling? {
      FillConsistent(s);
    } else if s.producer.Counting? {
      CountConsistent(s);
    }
  }

  /** Counting a taken cell out removes the first queued socket. */
  lemma UncountConsistent(s: State, i: nat)
    requires Enabled(s, Consume(i)) && Inv(s) && s.consumers[i].CCounting?
    ensures Consistent(ConsumerStep(s, i))
  {
    var r, d, e := s.ring, |s.dequeued|, Enqueued(s);
    assert ConsumerStaged(s, s.consumers[i]);
    assert Holder(s) == s.consumers[i] && !Holder(ConsumerStep(s, i)).CCounting?;
    ContentsTake(r.cells, d % MAX_CONN_BACKLOG, r.size);
    PositionsLater(d, 1);
    assert s.accepted[d..e][1..] == s.accepted[d + 1..e];
    assert s.accepted[..d + 1] == s.accepted[..d] + [s.accepted[d]];
  }

  lemma ConsumerConsistent(s: State, i: nat)
    requires Enabled(s, Consume(i)) && Inv(s)
    ensures Consistent(ConsumerStep(s, i))
  {
    if s.consumers[i].CCounting? {
      UncountConsistent(s, i);
    } else {
      var s' := ConsumerStep(s, i);
      assert Holder(s').CCounting? <==> Holder(s).CCounting? || s.consumers[i].CAdvancing?;
      assert Enqueued(s') == Enqueued(s) && s'.ring.cells == s.ring.cells && s'.ring.size == s.ring.size;
    }
  }

  lemma ProducerStaged(s: State, woken: set<nat>)
    requires Enabled(s, Produce(woken)) && Inv(s)
    ensures Staged(ProducerStep(s, woken))
  {
    var s' := ProducerStep(s, woken);
    forall i | 0 <= i < |s'.consumers| ensures ConsumerStaged(s', s'.consumers[i]) {
      assert ConsumerStaged(s, s.consumers[i]);
    }
  }

  lemma ConsumerStagedKept(s: State, i: nat)
    requires Enabled(s, Consume(i)) && Inv(s)
    ensures Staged(ConsumerStep(s, i))
  {
    var s' := ConsumerStep(s, i);
    assert ConsumerStaged(s, s.consumers[i]);
    if s.consumers[i].CTaking? {
      var d := |s.dequeued|;
      ContentsTake(s.ring.cells, d % MAX_CONN_BACKLOG, s.ring.size);
      assert s.accepted[d..Enqueued(s)][0] == s.accepted[d];
    }
    forall j | 0 <= j < |s'.consumers| ensures ConsumerStaged(s', s'.consumers[j]) {
      assert ConsumerStaged(s, s.consumers[j]);
    }
  }

  lemma RouseWakes(cs: seq<Consumer>, woken: set<nat>)
    requires |cs| > 0 && WakesSome(cs, woken)
    ensures exists i :: 0 <= i < |cs| && Rouse(cs, woken)[i] != CAsleep
  {
    if cs[0] == CAsleep {
      assert 0 in Sleepers(cs);
      var i :| i in woken;
      assert i in Sleepers(cs);
      assert Rouse(cs, woken)[i] == CWoken;
    } else {
      assert 0 !in Sleepers(cs);
      assert Rouse(cs, woken)[0] == cs[0];
    }
  }

  lemma ProducerAwake(s: State, woken: set<nat>)
    requires Enabled(s, Produce(woken)) && Inv(s)
    ensures Awake(ProducerStep(s, woken))
  {
    if s.producer.Signalling? {
      if s.ring.size == 1 {
        RouseWakes(s.consumers, woken);
      } else {
        assert !AllAsleep(s);
        assert Rouse(s.consumers, {}) == s.consumers;
      }
    } else if s.producer.Counting? {
      assert s.ring.size > 0 ==> !AllAsleep(s);
    }
  }

  lemma ConsumerAwake(s: State, i: nat)
    requires Enabled(s, Consume(i)) && Inv(s)
    ensures Awake(ConsumerStep(s, i))
  {
    var s' := ConsumerStep(s, i);
    assert ConsumerStaged(s, s.consumers[i]);
    assert s'.consumers[i] == CAsleep ==> s.ring.size == 0;
  }

  lemma ConsumerEnds(s: State, i: nat)
    requires Enabled(s, Consume(i)) && Inv(s)
    ensures Inv(ConsumerStep(s, i))
  {
    ConsumerExclusive(s, i);
    ConsumerConsistent(s, i);
    ConsumerStagedKept(s, i);
    ConsumerAwake(s, i);
  }

  lemma ProducerEnds(s: State, woken: set<nat>)
    requires Enabled(s, Produce(woken)) && Inv(s)
    ensures Inv(ProducerStep(s, woken))
  {
    ProducerExclusive(s, woken);
    ProducerConsistent(s, woken);
    ProducerStaged(s, woken);
    ProducerAwake(s, woken);
  }

  lemma ArrivalKeeps(s: State, a: Action)
    requires Enabled(s, a) && Inv(s) && (a.Accept? || a.WakeProducer?)
    ensures Inv(Do(s, a))
  {
    var s' := Do(s, a);
    forall i | 0 <= i < |s'.consumers| ensures ConsumerStaged(s', s'.consumers[i]) {
      assert ConsumerStaged(s, s.consumers[i]);
    }
    assert AllAsleep(s') <==> AllAsleep(s);
    assert s'.accepted[..|s.dequeued|] == s.accepted[..|s.dequeued|];
    assert s'.accepted[|s.dequeued|..Enqueued(s)] == s.accepted[|s.dequeued|..Enqueued(s)];
  }

  lemma WakeConsumerKeeps(s: State, i: nat)
    requires Enabled(s, WakeConsumer(i)) && Inv(s)
    ensures Inv(Do(s, WakeConsumer(i)))
  {
    var s' := Do(s, WakeConsumer(i));
    forall j | 0 <= j < |s'.consumers| ensures ConsumerStaged(s', s'.consumers[j]) {
      assert ConsumerStaged(s, s.consumers[j]);
    }
    assert s'.consumers[i] == CWoken;
  }

  lemma StepKeeps(s: State, a: Action)
    requires Enabled(s, a) && Inv(s)
    ensures Inv(Do(s, a))
  {
    match a {
      case Produce(woken) => ProducerEnds(s, woken);
      case Consume(i) => ConsumerEnds(s, i);
      case WakeConsumer(i) => WakeConsumerKeeps(s, i);
      case _ => ArrivalKeeps(s, a);
    }
  }

  // Runs

  /** `acts` can be taken one after the other from `s`, ending in `s'`. */
  ghost predicate Leads(s: State, acts: seq<Action>, s': State)
    decreases |acts|
  {
    if acts == [] then s' == s else
      Enabled(s, acts[0]) && Shaped(s.ring) && Leads(Do(s, acts[0]), acts[1..], s')
  }

  lemma {:induction false} RunKeeps(s: State, acts: seq<Action>, s': State)
    requires Inv(s) && Leads(s, acts, s')
    ensures Inv(s')
    decreases |acts|
  {
    if acts != [] {
      StepKeeps(s, acts[0]);
      RunKeeps(Do(s, acts[0]), acts[1..], s');
    }
  }

  /** First in, first out, in every interleaving of any number of service
      threads: the sockets taken are a prefix of the sockets accepted, in order;
      between critical sections the rest are the ring read circularly from
      `service_th_pos`, followed by the one the accept loop still holds; both
      positions are their operation counts modulo the capacity; and the queue
      never exceeds it. */
  lemma FirstInFirstOut(s: State, acts: seq<Action>, s': State)
    requires Initial(s) && Leads(s, acts, s')
    ensures 0 <= s'.ring.size <= 10 && Shaped(s'.ring)
    ensures s'.dequeued <= s'.accepted
    ensures s'.lock == Free ==>
              && s'.accepted == s'.dequeued + Contents(s'.ring.cells, s'.ring.servicePos, s'.ring.size)
                                + (if HasSocket(s'.producer) then [s'.producer.sock] else [])
              && s'.ring.servicePos == |s'.dequeued| % 10
              && s'.ring.producerPos == Enqueued(s') % 10
  {
    InitialInv(s);
    RunKeeps(s, acts, s');
    var d, e := |s'.dequeued|, Enqueued(s');
    assert s'.accepted == s'.accepted[..d] + s'.accepted[d..e] + s'.accepted[e..];
  }

  // Serving what was taken

  /** The thread has dequeued the socket and not finished with it. */
  predicate Carries(c: Consumer, sock: int) { (c.CSignalling? || c.CUnlocking? || c.CServing?) && c.sock == sock }

  /** How many threads carry the socket. */
  function Carriers(cs: seq<Consumer>, sock: int): nat {
    if cs == [] then 0 else (if Carries(cs[0], sock) then 1 else 0) + Carriers(cs[1..], sock)
  }

  /** How often a socket occurs in a sequence. */
  function Times(q: seq<int>, sock: int): nat { multiset(q)[sock] }

  lemma OneMoreTime(q: seq<int>, x: int, sock: int)
    ensures Times(q + [x], sock) == Times(q, sock) + if x == sock then 1 else 0
  {
  }

  /** Every dequeued socket has been served or is carried by one thread. */
  ghost predicate Handed(s: State) {
    forall sock {:trigger Times(s.dequeued, sock)} ::
      Times(s.dequeued, sock) == Times(s.served, sock) + Carriers(s.consumers, sock)
  }

  lemma {:induction false} CarriersUpdate(cs: seq<Consumer>, i: nat, c: Consumer, sock: int)
    requires i < |cs|
    ensures Carriers(cs[i := c], sock) + (if Carries(cs[i], sock) then 1 else 0)
         == Carriers(cs, sock) + (if Carries(c, sock) then 1 else 0)
  {
    if i == 0 {
      assert cs[i := c][1..] == cs[1..];
    } else {
      CarriersUpdate(cs[1..], i - 1, c, sock);
      assert cs[i := c][1..] == cs[1..][i - 1 := c];
    }
  }

  lemma {:induction false} CarriersAlike(cs: seq<Consumer>, ds: seq<Consumer>, sock: int)
    requires |cs| == |ds| && forall i :: 0 <= i < |cs| ==> (Carries(cs[i], sock) <==> Carries(ds[i], sock))
    ensures Carriers(cs, sock) == Carriers(ds, sock)
  {
    if cs != [] { CarriersAlike(cs[1..], ds[1..], sock); }
  }

  lemma {:induction false} NoCarriers(cs: seq<Consumer>, sock: int)
    requires forall i :: 0 <= i < |cs| ==> !Carries(cs[i], sock)
    ensures Carriers(cs, sock) == 0
  {
    if cs != [] { NoCarriers(cs[1..], sock); }
  }

  /** How a step changes what one thread carries, what was dequeued and what was served. */
  lemma ConsumerMoves(s: State, i: nat, sock: int)
    requires Enabled(s, Consume(i)) && Shaped(s.ring)
    ensures var s' := ConsumerStep(s, i);
            && |s'.consumers| == |s.consumers| && s'.consumers == s.consumers[i := s'.consumers[i]]
            && Times(s'.dequeued, sock) + Times(s.served, sock) + (if Carries(s.consumers[i], sock) then 1 else 0)
               == Times(s.dequeued, sock) + Times(s'.served, sock) + if Carries(s'.consumers[i], sock) then 1 else 0
  {
    var c := s.consumers[i];
    if c.CCounting? { OneMoreTime(s.dequeued, c.sock, sock); }
    if c.CServing? { OneMoreTime(s.served, c.sock, sock); }
  }

  lemma ConsumerHands(s: State, i: nat, sock: int)
    requires Enabled(s, Consume(i)) && Shaped(s.ring)
    ensures var s' := ConsumerStep(s, i);
            Times(s'.dequeued, sock) + Times(s.served, sock) + Carriers(s.consumers, sock)
            == Times(s.dequeued, sock) + Times(s'.served, sock) + Carriers(s'.consumers, sock)
  {
    ConsumerMoves(s, i, sock);
    CarriersUpdate(s.consumers, i, ConsumerStep(s, i).consumers[i], sock);
  }

  lemma StepHands(s: State, a: Action)
    requires Enabled(s, a) && Shaped(s.ring) && Handed(s)
    ensures Handed(Do(s, a))
  {
    var s' := Do(s, a);
    forall sock {:trigger Times(s'.dequeued, sock)}
      ensures Times(s'.dequeued, sock) == Times(s'.served, sock) + Carriers(s'.consumers, sock)
    {
      assert Times(s.dequeued, sock) == Times(s.served, sock) + Carriers(s.consumers, sock);
      match a {
        case Consume(i) => ConsumerHands(s, i, sock);
        case WakeConsumer(i) => CarriersUpdate(s.consumers, i, CWoken, sock);
        case _ => CarriersAlike(s.consumers, s'.consumers, sock);
      }
    }
  }

  lemma {:induction false} RunHands(s: State, acts: seq<Action>, s': State)
    requires Leads(s, acts, s') && Handed(s)
    ensures Handed(s')
    decreases |acts|
  {
    if acts != [] {
      StepHands(s, acts[0]);
      RunHands(Do(s, acts[0]), acts[1..], s');
    }
  }

  /** A thread serves the socket it has taken: in every reachable state the
      dequeued sockets are those served and those the threads carry, one by one. */
  lemma ServesWhatItTook(s: State, acts: seq<Action>, s': State)
    requires Initial(s) && Leads(s, acts, s')
    ensures forall sock :: Times(s'.dequeued, sock) == Times(s'.served, sock) + Carriers(s'.consumers, sock)
    ensures s'.dequeued <= s'.accepted
  {
    forall sock ensures Carriers(s.consumers, sock) == 0 {
      NoCarriers(s.consumers, sock);
    }
    RunHands(s, acts, s');
    InitialInv(s);
    RunKeeps(s, acts, s');
  }

  /** The model leaves the environment free: a connection may arrive whenever
      the accept loop waits for one, any sleeper may wake for no reason, and a
      signal may wake any sleepers, but at least one. */
  lemma EnvironmentFree(s: State, sock: int, woken: set<nat>, i: nat)
    ensures s.producer == Accepting ==> Enabled(s, Accept(sock))
    ensures s.producer.Asleep? ==> Enabled(s, WakeProducer)
    ensures i < |s.consumers| && s.consumers[i] == CAsleep ==> Enabled(s, WakeConsumer(i))
    ensures s.producer.Signalling? && s.ring.size == 1 ==>
              (Enabled(s, Produce(woken)) <==>
                 && (forall k :: k in woken ==> k < |s.consumers| && s.consumers[k] == CAsleep)
                 && (woken == {} ==> forall k :: 0 <= k < |s.consumers| ==> s.consumers[k] != CAsleep))
  {
    assert forall k: nat :: k in Sleepers(s.consumers) <==> k < |s.consumers| && s.consumers[k] == CAsleep;
  }

  /** At most one thread is ever between locking and unlocking the mutex. */
  lemma MutualExclusion(s: State, acts: seq<Action>, s': State, i: nat, j: nat)
    requires Initial(s) && Leads(s, acts, s')
    requires i < |s'.consumers| && j < |s'.consumers| && CInSection(s'.consumers[i])
    ensures !InSection(s'.producer)
    ensures CInSection(s'.consumers[j]) ==> i == j
  {
    InitialInv(s);
    RunKeeps(s, acts, s');
  }

  /** Conditional signalling loses no wakeup: the accept loop sleeps only on a
      full queue, and while sockets wait some service thread is awake or
      signalled. The one exception to each is the thread inside the mutex that
      is about to signal, so between critical sections there is none. */
  lemma NoLostWakeup(s: State, acts: seq<Action>, s': State)
    requires Initial(s) && Leads(s, acts, s')
    ensures s'.producer.Asleep? ==>
              || s'.ring.size == MAX_CONN_BACKLOG
              || (s'.ring.size == MAX_CONN_BACKLOG - 1 && s'.lock.ByConsumer? && Holder(s').CSignalling?)
    ensures s'.ring.size > 0 ==>
              || (exists i :: 0 <= i < |s'.consumers| && s'.consumers[i] != CAsleep)
              || (s'.ring.size == 1 && s'.lock == ByProducer && s'.producer.Signalling?)
  {
    InitialInv(s);
    RunKeeps(s, acts, s');
    assert s'.ring.size > 0 && s'.producer != Signalling ==> !AllAsleep(s');
  }

  /** Nothing is left to do: no socket waits, and every service thread sleeps. */
  ghost predicate Quiescent(s: State) {
    s.ring.size == 0 && s.producer == Accepting && AllAsleep(s)
  }

  /** The server's own steps: neither a new connection nor a wakeup for no reason. */
  predicate Internal(a: Action) { a.Produce? || a.Consume? }

  /** No deadlock: in every reachable state that is not quiescent some thread
      can take a step of its own. */
  lemma NoDeadlock(s: State, acts: seq<Action>, s': State) returns (a: Action)
    requires Initial(s) && Leads(s, acts, s') && !Quiescent(s')
    ensures Internal(a) && Enabled(s', a)
  {
    InitialInv(s);
    RunKeeps(s, acts, s');
    if s'.lock == ByProducer {
      a := Produce(if s'.producer.Signalling? && s'.ring.size == 1 then Sleepers(s'.consumers) else {});
    } else if s'.lock.ByConsumer? {
      a := Consume(s'.lock.i);
    } else if !s'.producer.Accepting? && !s'.producer.Asleep? {
      a := Produce({});
    } else {
      assert !AllAsleep(s');
      var i :| 0 <= i < |s'.consumers| && s'.consumers[i] != CAsleep;
      a := Consume(i);
    }
  }

  // Draining

  function ProducerRank(p: Producer): nat {
    match p
    case Accepting => 0
    case Asleep(_) => 0
    case Unlocking => 1
    case Signalling => 2
    case Counting(_) => 3
    case Advancing(_) => 4
    case Filling(_) => 5
    case Checking(_) => 6
    case Locking(_) => 7
    case Woken(_) => 7
  }

  function ConsumerRank(c: Consumer): (n: nat)
    ensures n <= 8
  {
    match c
    case CAsleep => 0
    case CCounting(_) => 1
    case CAdvancing(_) => 2
    case CTaking => 3
    case CChecking => 4
    case CWoken => 5
    case CLocking => 5
    case CServing(_) => 6
    case CUnlocking(_) => 7
    case CSignalling(_) => 8
  }

  function Ranks(cs: seq<Consumer>): (n: nat)
    ensures n <= 8 * |cs|
  {
    if cs == [] then 0 else ConsumerRank(cs[0]) + Ranks(cs[1..])
  }

  /** Sockets still to be taken, counted twice, and once more while a service
      thread may be about to wake the accept loop. */
  function Work(s: State): int {
    2 * (s.ring.size + if HasSocket(s.producer) then 1 else 0) + if Holder(s).CSignalling? then 1 else 0
  }

  /** What is compared first: the work, then the stage of the accept loop. */
  function Major(s: State): int { 10 * Work(s) + ProducerRank(s.producer) }

  /** The lexicographic measure (work, accept-loop stage, service-thread
      stages) as one number. */
  function Measure(s: State): int { Major(s) * (8 * |s.consumers| + 1) + Ranks(s.consumers) }

  lemma {:induction false} RanksUpdate(cs: seq<Consumer>, i: nat, c: Consumer)
    requires i < |cs|
    ensures Ranks(cs[i := c]) + ConsumerRank(cs[i]) == Ranks(cs) + ConsumerRank(c)
  {
    if i == 0 {
      assert cs[i := c][1..] == cs[1..];
    } else {
      RanksUpdate(cs[1..], i - 1, c);
      assert cs[i := c][1..] == cs[1..][i - 1 := c];
    }
  }

  lemma Lexicographic(k: int, k': int, w: nat, low: nat, low': nat)
    requires low < w && low' < w
    requires k' < k || (k' == k && low' < low)
    ensures k' * w + low' < k * w + low
  {
    if k' < k {
      var gap := k - k';
      assert gap * w >= w by {
        assert gap * w == (gap - 1) * w + w;
        assert (gap - 1) * w >= 0;
      }
      assert k * w == k' * w + gap * w;
    }
  }

  /** A step of the accept loop ends a stage or hands its socket over. */
  lemma ProducerFalls(s: State, woken: set<nat>)
    requires Inv(s) && Enabled(s, Produce(woken))
    ensures Major(ProducerStep(s, woken)) < Major(s)
  {
    var s' := ProducerStep(s, woken);
    assert Holder(s').CSignalling? <==> Holder(s).CSignalling?;
  }

  /** A step of a service thread takes a socket, or uses up the signal it owes,
      or ends a stage. */
  lemma ConsumerFalls(s: State, i: nat)
    requires Inv(s) && Enabled(s, Consume(i))
    ensures var s' := ConsumerStep(s, i);
            Major(s') < Major(s)
            || (Major(s') == Major(s) && ConsumerRank(s'.consumers[i]) < ConsumerRank(s.consumers[i]))
  {
    assert ConsumerStaged(s, s.consumers[i]);
    assert s.lock == ByConsumer(i) ==> Holder(s) == s.consumers[i];
  }

  /** Every internal step makes the measure smaller. */
  lemma MeasureFalls(s: State, a: Action)
    requires Inv(s) && Enabled(s, a) && Internal(a)
    ensures Measure(Do(s, a)) < Measure(s)
  {
    var s' := Do(s, a);
    var cs, cs' := s.consumers, s'.consumers;
    assert |cs'| == |cs|;
    match a {
      case Produce(woken) =>
        ProducerFalls(s, woken);
      case Consume(i) =>
        ConsumerFalls(s, i);
        assert cs' == cs[i := cs'[i]];
        RanksUpdate(cs, i, cs'[i]);
    }
    Lexicographic(Major(s), Major(s'), 8 * |cs| + 1, Ranks(cs), Ranks(cs'));
  }

  lemma MeasureNatural(s: State)
    requires Inv(s)
    ensures Measure(s) >= 0
  {
    var w := 8 * |s.consumers| + 1;
    assert Major(s) >= 0;
    assert Major(s) * w >= 0;
  }

  lemma {:induction false} InternalRunShort(s: State, acts: seq<Action>, s': State)
    requires Inv(s) && Leads(s, acts, s') && forall k :: 0 <= k < |acts| ==> Internal(acts[k])
    ensures |acts| + Measure(s') <= Measure(s) && s'.accepted == s.accepted
    decreases |acts|
  {
    if acts != [] {
      MeasureFalls(s, acts[0]);
      StepKeeps(s, acts[0]);
      InternalRunShort(Do(s, acts[0]), acts[1..], s');
    }
  }

  /** Once arrivals stop and nobody wakes for no reason, the server takes at
      most `Measure` more steps, and when no step is left every accepted socket
      has been taken exactly once, in order, and served exactly once, and
      everyone sleeps. */
  lemma DrainsCompletely(s0: State, before: seq<Action>, s: State, acts: seq<Action>, s': State)
    requires Initial(s0) && Leads(s0, before, s) && Leads(s, acts, s')
    requires forall k :: 0 <= k < |acts| ==> Internal(acts[k])
    ensures |acts| <= Measure(s)
    ensures (forall a :: Internal(a) ==> !Enabled(s', a)) ==>
              Quiescent(s') && s'.dequeued == s.accepted && multiset(s'.served) == multiset(s.accepted)
  {
    InitialInv(s0);
    RunKeeps(s0, before, s);
    InternalRunShort(s, acts, s');
    RunKeeps(s, acts, s');
    MeasureNatural(s');
    LeadsThen(s0, before, s, acts, s');
    if Quiescent(s') {
      ServesWhatItTook(s0, before + acts, s');
      QuiescentTaken(s');
    } else {
      var a := NoDeadlock(s0, before + acts, s');
    }
  }

  lemma QuiescentTaken(s: State)
    requires Inv(s) && Handed(s) && Quiescent(s)
    ensures s.dequeued == s.accepted && multiset(s.served) == multiset(s.accepted)
  {
    assert s.accepted[..|s.dequeued|] == s.accepted;
    forall sock: int ensures multiset(s.served)[sock] == multiset(s.accepted)[sock] {
      NoCarriers(s.consumers, sock);
      assert Times(s.dequeued, sock) == Times(s.served, sock) + Carriers(s.consumers, sock);
    }
  }

  lemma {:induction false} LeadsThen(s0: State, a: seq<Action>, s: State, b: seq<Action>, s': State)
    requires Leads(s0, a, s) && Leads(s, b, s')
    ensures Leads(s0, a + b, s')
    decreases |a|
  {
    if a == [] {
      assert a + b == b;
    } else {
      assert (a + b)[1..] == a[1..] + b;
      LeadsThen(Do(s0, a[0]), a[1..], s, b, s');
    }
  }

  // One signal, two sockets

  /** A run with one more action at its end. */
  lemma OneMoreAction(s: State, acts: seq<Action>, m: State, a: Action)
    requires Leads(s, acts, m) && Enabled(m, a) && Shaped(m.ring)
    ensures Leads(s, acts + [a], Do(m, a))
  {
    assert [a][1..] == [];
    LeadsThen(s, acts, m, [a], Do(m, a));
  }

  /** The accept loop's whole turn for one socket while the queue has room. */
  function AfterTurn(s: State, sock: int, woken: set<nat>): State
    requires Shaped(s.ring)
  {
    var r := s.ring;
    s.(ring := Ring(r.cells[r.producerPos := sock], r.size + 1, r.servicePos, Around(r.producerPos, 1)),
       consumers := Rouse(s.consumers, woken), accepted := s.accepted + [sock])
  }

  /** Accepting a socket, up to having stored it. */
  lemma Stores(s: State, sock: int) returns (acts: seq<Action>)
    requires s.producer == Accepting && s.lock == Free && Shaped(s.ring) && s.ring.size < MAX_CONN_BACKLOG
    ensures var r := s.ring;
            Leads(s, acts, s.(producer := Advancing(sock), lock := ByProducer, accepted := s.accepted + [sock],
                              ring := r.(cells := r.cells[r.producerPos := sock])))
  {
    var a := Produce({});
    var s1 := Do(s, Accept(sock));
    var s2 := Do(s1, a);
    var s3 := Do(s2, a);
    OneMoreAction(s, [], s, Accept(sock));
    OneMoreAction(s, [Accept(sock)], s1, a);
    OneMoreAction(s, [Accept(sock)] + [a], s2, a);
    OneMoreAction(s, [Accept(sock)] + [a] + [a], s3, a);
    acts := [Accept(sock)] + [a] + [a] + [a];
  }

  lemma Publishes(s: State, woken: set<nat>) returns (acts: seq<Action>)
    requires s.producer.Advancing? && s.lock == ByProducer && Shaped(s.ring)
    requires s.ring.size < MAX_CONN_BACKLOG
    requires if s.ring.size == 0 then WakesSome(s.consumers, woken) else woken == {}
    ensures var r := s.ring;
            Leads(s, acts, s.(producer := Accepting, lock := Free, consumers := Rouse(s.consumers, woken),
                              ring := r.(size := r.size + 1, producerPos := Around(r.producerPos, 1))))
  {
    var a := Produce({});
    var s1 := Do(s, a);
    var s2 := Do(s1, a);
    var s3 := Do(s2, Produce(woken));
    OneMoreAction(s, [], s, a);
    OneMoreAction(s, [a], s1, a);
    OneMoreAction(s, [a] + [a], s2, Produce(woken));
    OneMoreAction(s, [a] + [a] + [Produce(woken)], s3, a);
    acts := [a] + [a] + [Produce(woken)] + [a];
  }

  lemma TurnTaken(s: State, sock: int, woken: set<nat>) returns (acts: seq<Action>)
    requires s.producer == Accepting && s.lock == Free && Shaped(s.ring) && s.ring.size < MAX_CONN_BACKLOG
    requires if s.ring.size == 0 then WakesSome(s.consumers, woken) else woken == {}
    ensures Leads(s, acts, AfterTurn(s, sock, woken))
  {
    var first := Stores(s, sock);
    var r := s.ring;
    var m := s.(producer := Advancing(sock), lock := ByProducer, accepted := s.accepted + [sock],
                ring := r.(cells := r.cells[r.producerPos := sock]));
    var second := Publishes(m, woken);
    acts := first + second;
    LeadsThen(s, first, m, second, AfterTurn(s, sock, woken));
  }

  /** A service thread that finds nothing goes to sleep. */
  lemma Dozes(s: State, i: nat) returns (acts: seq<Action>)
    requires i < |s.consumers| && s.consumers[i] == CLocking && s.lock == Free
    requires Shaped(s.ring) && s.ring.size == 0
    ensures Leads(s, acts, Put(s, i, CAsleep))
  {
    var m := Do(s, Consume(i));
    OneMoreAction(s, [], s, Consume(i));
    OneMoreAction(s, [Consume(i)], m, Consume(i));
    acts := [Consume(i)] + [Consume(i)];
    assert Do(m, Consume(i)).consumers == Put(s, i, CAsleep).consumers;
  }

  /** A pool whose first `k` service threads sleep and whose others are about to lock. */
  function Pool(n: nat, k: nat): (cs: seq<Consumer>)
    ensures |cs| == n
  {
    seq(n, i => if i < k then CAsleep else CLocking)
  }

  /** The first `k` service threads of a fresh server doze off one by one. */
  lemma {:induction false} AllDoze(s: State, k: nat) returns (acts: seq<Action>)
    requires Initial(s) && k <= |s.consumers|
    ensures Leads(s, acts, s.(consumers := Pool(|s.consumers|, k)))
  {
    var n := |s.consumers|;
    if k == 0 {
      acts := [];
      assert s.consumers == Pool(n, 0);
    } else {
      acts := AllDoze(s, k - 1);
      var m := s.(consumers := Pool(n, k - 1));
      var more := Dozes(m, k - 1);
      assert Pool(n, k - 1)[k - 1 := CAsleep] == Pool(n, k);
      LeadsThen(s, acts, m, more, s.(consumers := Pool(n, k)));
      acts := acts + more;
    }
  }

  /** What signalling only the step from empty gives up: in a pool of any size
      the queue can fill to any length while one service thread has been woken
      and all others sleep on. */
  lemma {:induction false} SleepsWhileQueued(n: nat, queued: nat) returns (s: State, acts: seq<Action>, s': State)
    requires n > 0 && 1 <= queued <= MAX_CONN_BACKLOG
    ensures Initial(s) && |s.consumers| == n && Leads(s, acts, s')
    ensures s'.lock == Free && s'.producer == Accepting && s'.ring.size == queued && Shaped(s'.ring)
    ensures s'.consumers == Pool(n, n)[0 := CWoken]
    decreases queued
  {
    var m, more;
    var woken: set<nat> := {};
    if queued == 1 {
      s := State(Ring(seq(MAX_CONN_BACKLOG, _ => 0), 0, 0, 0), Free, Accepting, Pool(n, 0), [], [], []);
      acts := AllDoze(s, n);
      m := s.(consumers := Pool(n, n));
      assert 0 in Sleepers(m.consumers);
      woken := {0};
    } else {
      s, acts, m := SleepsWhileQueued(n, queued - 1);
    }
    more := TurnTaken(m, 7, woken);
    s' := AfterTurn(m, 7, woken);
    assert s'.consumers == Pool(n, n)[0 := CWoken];
    LeadsThen(s, acts, m, more, s');
    acts := acts + more;
  }

  lemma {:induction false} PoolKept(s: State, acts: seq<Action>, s': State)
    requires Leads(s, acts, s')
    ensures |s'.consumers| == |s.consumers|
    decreases |acts|
  {
    if acts != [] {
      PoolKept(Do(s, acts[0]), acts[1..], s');
    }
  }

  /** In a pool of `n` service threads, none ever sleeps while a socket is
      queued and nobody holds the mutex. */
  ghost predicate NobodySleeps(n: nat) {
    forall s, acts, s' {:trigger Leads(s, acts, s')} ::
      Initial(s) && |s.consumers| == n && Leads(s, acts, s') && s'.lock == Free && s'.ring.size > 0 ==>
        forall i :: 0 <= i < |s'.consumers| ==> s'.consumers[i] != CAsleep
  }

  /** That is so exactly when one thread serves alone. */
  lemma NobodySleepsIff(n: nat)
    requires n > 0
    ensures NobodySleeps(n) <==> n == 1
  {
    if n == 1 {
      forall s, acts, s' {:trigger Leads(s, acts, s')} |
          Initial(s) && |s.consumers| == n && Leads(s, acts, s') && s'.lock == Free && s'.ring.size > 0
        ensures forall i :: 0 <= i < |s'.consumers| ==> s'.consumers[i] != CAsleep
      {
        NoLostWakeup(s, acts, s');
        PoolKept(s, acts, s');
      }
    } else {
      var s, acts, s' := SleepsWhileQueued(n, 1);
      assert s'.consumers[1] == CAsleep;
    }
  }
}

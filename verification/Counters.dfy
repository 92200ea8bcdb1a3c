/** Identifiers under interleaving: the counter on file keeps count of the
    identifiers taken exactly as long as every thread that writes a user's data
    finds on file the counter it has read. */
module Counters {
  import opened Types
  import opened Protocol
  import opened Interleaving
  import Lifecycle
  import Schedules

  /** The counter on file; a user without a table starts from 0. */
  function Counter(s: Store, r: string): MsgId { if r in s then s[r].data.lastMsgId else 0 }

  /** After `base` and all takings so far the counter is right, modulo its range. */
  ghost predicate Counted(s: State, r: string, base: nat) {
    Counter(s.store, r) == (base + AllTakings(s.log, r)) % MSG_ID_MAX_VALUE
  }

  /** A thread about to write `r`'s data finds on file the counter it has read:
      the identifier it takes follows that counter, and other writes repeat it. */
  predicate Fresh(s: Store, t: Thread, r: string) {
    r in s ==>
      match t
      case TakingId(l, d) => l.to == r ==> d.lastMsgId == NextId(s[r].data.lastMsgId)
      case DroppingRecipient(l, d) => l.to == r ==> d.lastMsgId == s[r].data.lastMsgId
      case WritingConnect(u, d) => u == r ==> d.lastMsgId == s[r].data.lastMsgId
      case WritingDisconnect(u, d) => u == r ==> d.lastMsgId == s[r].data.lastMsgId
      case DroppingReader(u, d, _) => u == r ==> d.lastMsgId == s[r].data.lastMsgId
      case _ => true
  }

  /** The move removes `r`'s table. */
  predicate Removes(s: State, m: Move, r: string)
    requires m.thread < |s.threads|
  {
    m.choice.Go? && s.threads[m.thread] == DeletingTable(r) && r in s.store
  }

  ghost predicate Unremoved(s: State, moves: seq<Move>, r: string)
    requires Schedule(|s.threads|, moves)
    decreases |moves|
  {
    moves != [] ==>
      !Removes(s, moves[0], r) && Unremoved(Next(s, moves[0].thread, moves[0].choice), moves[1..], r)
  }

  /** Every write of `r`'s data along the schedule is fresh. */
  ghost predicate AllFresh(s: State, moves: seq<Move>, r: string)
    requires Schedule(|s.threads|, moves)
    decreases |moves|
  {
    moves != [] ==>
      var m := moves[0];
      && (m.choice.Go? ==> Fresh(s.store, s.threads[m.thread], r))
      && AllFresh(Next(s, m.thread, m.choice), moves[1..], r)
  }

  /** The counter is right at every moment of the schedule. */
  ghost predicate AlwaysCounted(s: State, moves: seq<Move>, r: string, base: nat)
    requires Schedule(|s.threads|, moves)
    decreases |moves|
  {
    && Counted(s, r, base)
    && (moves != [] ==> AlwaysCounted(Next(s, moves[0].thread, moves[0].choice), moves[1..], r, base))
  }

  /** What one call does to the counter and to the takings. */
  predicate Steps(s: Store, h: History, t: Thread, e: Effect, r: string) {
    if r in s && t.TakingId? && t.letter.to == r then
      AllTakings(e.log, r) == AllTakings(h, r) + 1 && Counter(e.store, r) == t.data.lastMsgId
    else
      && AllTakings(e.log, r) == AllTakings(h, r)
      && (Counter(e.store, r) == Counter(s, r) <==> Fresh(s, t, r))
  }

  lemma TableSteps(s: Store, h: History, t: Thread, r: string)
    requires InTableService(t) && !(t == DeletingTable(r) && r in s)
    ensures Steps(s, h, t, TableStep(s, h, t), r)
  {
  }

  lemma ConnectSteps(s: Store, h: History, t: Thread, c: Choice, r: string)
    requires InConnect(t) && c.Go?
    ensures Steps(s, h, t, ConnectStep(s, h, t, c), r)
  {
  }

  lemma SendSteps(s: Store, h: History, t: Thread, c: Choice, r: string)
    requires !InTableService(t) && !InConnect(t) && c.Go?
    ensures Steps(s, h, t, SendStep(s, h, t, c), r)
  {
    var e := SendStep(s, h, t, c);
    if e.log != h && e.log.past != h { assert AllTakings(e.log, r) == AllTakings(e.log.past, r); }
  }

  /** One move keeps the count if and only if its write is fresh. */
  lemma StepCountsIff(s: State, m: Move, r: string, base: nat)
    requires m.thread < |s.threads| && Counted(s, r, base) && !Removes(s, m, r)
    ensures Counted(Next(s, m.thread, m.choice), r, base)
       <==> (m.choice.Go? ==> Fresh(s.store, s.threads[m.thread], r))
  {
    var t, c := s.threads[m.thread], m.choice;
    if c.Go? {
      if InTableService(t) { TableSteps(s.store, s.log, t, r); }
      else if InConnect(t) { ConnectSteps(s.store, s.log, t, c, r); }
      else { SendSteps(s.store, s.log, t, c, r); }
      Lifecycle.NextIdCounts(base + AllTakings(s.log, r));
    }
  }

  /** While nobody removes `r`, the counter equals the number of identifiers
      taken, modulo its range, at every moment of a schedule if and only if
      every write of `r`'s data is fresh. */
  lemma {:induction false} CountsIffFresh(s: State, moves: seq<Move>, r: string, base: nat)
    requires Schedule(|s.threads|, moves) && Counted(s, r, base) && Unremoved(s, moves, r)
    ensures AlwaysCounted(s, moves, r, base) <==> AllFresh(s, moves, r)
    decreases |moves|
  {
    if moves != [] {
      var m := moves[0];
      var s' := Next(s, m.thread, m.choice);
      StepCountsIff(s, m, r, base);
      if Counted(s', r, base) {
        CountsIffFresh(s', moves[1..], r, base);
      }
    }
  }

  // The identifiers taken

  /** Whether a move takes an identifier of `r`. */
  predicate Takes(s: State, m: Move, r: string)
    requires m.thread < |s.threads|
  {
    m.choice.Go? && s.threads[m.thread].TakingId? && s.threads[m.thread].letter.to == r && r in s.store
  }

  /** The identifiers that SENDs to `r` take along a schedule, in order. */
  function TakenIds(s: State, moves: seq<Move>, r: string): seq<MsgId>
    requires forall k :: 0 <= k < |moves| ==> moves[k].thread < |s.threads|
    decreases |moves|
  {
    if moves == [] then [] else
      var m := moves[0];
      var later := TakenIds(Next(s, m.thread, m.choice), moves[1..], r);
      if Takes(s, m, r) then [s.threads[m.thread].letter.msg.id] + later else later
  }

  /** The identifier of the n-th taking. */
  function Nth(n: nat): MsgId { n % MSG_ID_MAX_VALUE }

  /** The identifiers are those of the takings after the n-th, one after the other. */
  predicate Consecutive(ids: seq<MsgId>, n: nat) {
    ids != [] ==> ids[0] == Nth(n + 1) && Consecutive(ids[1..], n + 1)
  }

  lemma {:induction false} ConsecutiveAt(ids: seq<MsgId>, n: nat, k: nat)
    requires Consecutive(ids, n) && k < |ids|
    ensures ids[k] == Nth(n + k + 1)
  {
    if k > 0 {
      ConsecutiveAt(ids[1..], n + 1, k - 1);
      assert ids[k] == ids[1..][k - 1];
    }
  }

  /** A fresh schedule takes the identifiers one after the other. */
  lemma {:induction false} TakenInOrder(s: State, moves: seq<Move>, r: string, base: nat)
    requires Schedule(|s.threads|, moves) && Counted(s, r, base)
    requires Unremoved(s, moves, r) && AllFresh(s, moves, r)
    requires forall i :: 0 <= i < |s.threads| ==> Sane(s.threads[i])
    ensures Consecutive(TakenIds(s, moves, r), base + AllTakings(s.log, r))
    decreases |moves|
  {
    if moves != [] {
      var m := moves[0];
      var t := s.threads[m.thread];
      var s' := Next(s, m.thread, m.choice);
      StepCountsIff(s, m, r, base);
      StepTakes(s, m, r, base);
      ThreadStepSane(s.store, s.log, t, m.choice);
      TakenInOrder(s', moves[1..], r, base);
      var later := TakenIds(s', moves[1..], r);
      if Takes(s, m, r) { assert ([t.letter.msg.id] + later)[1..] == later; }
    }
  }

  lemma StepTakes(s: State, m: Move, r: string, base: nat)
    requires m.thread < |s.threads| && Sane(s.threads[m.thread]) && Counted(s, r, base) && !Removes(s, m, r)
    requires m.choice.Go? ==> Fresh(s.store, s.threads[m.thread], r)
    ensures var n, n' := AllTakings(s.log, r), AllTakings(Next(s, m.thread, m.choice).log, r);
            if Takes(s, m, r) then n' == n + 1 && s.threads[m.thread].letter.msg.id == Nth(base + n + 1) else n' == n
  {
    var t := s.threads[m.thread];
    if m.choice.Go? {
      if InTableService(t) { TableSteps(s.store, s.log, t, r); }
      else if InConnect(t) { ConnectSteps(s.store, s.log, t, m.choice, r); }
      else { SendSteps(s.store, s.log, t, m.choice, r); }
      Lifecycle.NextIdCounts(base + AllTakings(s.log, r));
    }
  }

  /** Two takings less than a lap apart differ. */
  ghost predicate DistinctInLap(ids: seq<MsgId>) {
    forall j, k :: 0 <= j < k < |ids| && k - j < MSG_ID_MAX_VALUE ==> ids[j] != ids[k]
  }

  /** A fresh schedule takes no identifier twice within a lap. */
  lemma TakenDistinct(s: State, moves: seq<Move>, r: string, base: nat)
    requires Schedule(|s.threads|, moves) && Counted(s, r, base)
    requires Unremoved(s, moves, r) && AllFresh(s, moves, r)
    requires forall i :: 0 <= i < |s.threads| ==> Sane(s.threads[i])
    ensures DistinctInLap(TakenIds(s, moves, r))
  {
    TakenInOrder(s, moves, r, base);
    var ids, n := TakenIds(s, moves, r), base + AllTakings(s.log, r);
    forall j, k | 0 <= j < k < |ids| && k - j < MSG_ID_MAX_VALUE ensures ids[j] != ids[k] {
      ConsecutiveAt(ids, n, j);
      ConsecutiveAt(ids, n, k);
      var a, b := n + k + 1, n + j + 1;
      Lifecycle.SameRemainder(a, b);
      Lifecycle.NoSmallMultiple(a - b);
    }
  }

  lemma {:induction false} TakenThen(s: State, a: seq<Move>, b: seq<Move>, r: string)
    requires Schedule(|s.threads|, a) && Schedule(|s.threads|, b)
    ensures Schedule(|s.threads|, a + b)
    ensures TakenIds(s, a + b, r) == TakenIds(s, a, r) + TakenIds(Play(s, a), b, r)
    decreases |a|
  {
    if a == [] {
      assert a + b == b;
    } else {
      assert (a + b)[1..] == a[1..] + b;
      TakenThen(Next(s, a[0].thread, a[0].choice), a[1..], b, r);
    }
  }

  /** As many identifiers are taken as the history tells. */
  lemma {:induction false} TakenCount(s: State, moves: seq<Move>, r: string)
    requires Schedule(|s.threads|, moves) && Unremoved(s, moves, r)
    ensures |TakenIds(s, moves, r)| + AllTakings(s.log, r) == AllTakings(Play(s, moves).log, r)
    decreases |moves|
  {
    if moves != [] {
      var m := moves[0];
      StepTakings(s, m, r);
      TakenCount(Next(s, m.thread, m.choice), moves[1..], r);
    }
  }

  lemma StepTakings(s: State, m: Move, r: string)
    requires m.thread < |s.threads| && !Removes(s, m, r)
    ensures AllTakings(Next(s, m.thread, m.choice).log, r)
         == AllTakings(s.log, r) + if Takes(s, m, r) then 1 else 0
  {
    var t := s.threads[m.thread];
    if m.choice.Go? {
      if InTableService(t) { TableSteps(s.store, s.log, t, r); }
      else if InConnect(t) { ConnectSteps(s.store, s.log, t, m.choice, r); }
      else { SendSteps(s.store, s.log, t, m.choice, r); }
    }
  }

  /** Every thread that is about to take an identifier is about to take `id`. */
  ghost predicate AllTake(s: State, id: MsgId) {
    forall i :: 0 <= i < |s.threads| ==>
      match s.threads[i]
      case TakingId(l, _) => l.msg.id == id
      case CheckingSender(_, _, _) => false
      case CheckingRecipient(_, _, _, _) => false
      case ReadingRecipient(_, _, _) => false
      case _ => true
  }

  /** Then, while no request begins, nothing else is taken. */
  lemma {:induction false} TakenAlike(s: State, moves: seq<Move>, r: string, id: MsgId)
    requires Schedule(|s.threads|, moves) && AllTake(s, id)
    requires forall k :: 0 <= k < |moves| ==> moves[k].choice.Go?
    ensures forall k :: 0 <= k < |TakenIds(s, moves, r)| ==> TakenIds(s, moves, r)[k] == id
    decreases |moves|
  {
    if moves != [] {
      var m := moves[0];
      TakenAlike(Next(s, m.thread, m.choice), moves[1..], r, id);
    }
  }

  // Requests that do not overlap

  /** The thread is serving a request that reads or writes `r`'s data. */
  predicate Concerns(t: Thread, r: string) {
    if InTableService(t) || InConnect(t) then t.user == r
    else
      match t
      case CheckingSender(_, to, _) => to == r
      case CheckingRecipient(_, to, _, _) => to == r
      case ReadingRecipient(_, to, _) => to == r
      case Refusing(_, to, _) => to == r
      case TakingId(l, _) => l.to == r
      case RereadingRecipient(l, _) => l.to == r
      case Passing(l, _) => l.to == r
      case DroppingRecipient(l, _) => l.to == r
      case Storing(l, _, _, _) => l.to == r
      case Answering(l, _, _, _) => l.to == r
      case Acking(l, _) => l.to == r
      case _ => false
  }

  /** What a thread carries of `r`'s data is what is on file. */
  predicate Current(s: Store, t: Thread, r: string) {
    && Fresh(s, t, r)
    && (r in s ==>
          match t
          case Forwarding(u, d, _) => u == r ==> d.lastMsgId == s[r].data.lastMsgId
          case Passing(l, d) => l.to == r ==> d.lastMsgId == s[r].data.lastMsgId
          case _ => true)
  }

  /** A request concerning `r` begins only when no thread serves another. */
  ghost predicate Apart(s: State, moves: seq<Move>, r: string)
    requires Schedule(|s.threads|, moves)
    decreases |moves|
  {
    moves != [] ==>
      var m := moves[0];
      && (m.choice.Begin? && Concerns(Starting(m.choice.request), r) ==>
            forall i :: 0 <= i < |s.threads| && i != m.thread ==> !Concerns(s.threads[i], r))
      && Apart(Next(s, m.thread, m.choice), moves[1..], r)
  }

  ghost predicate Undisturbed(s: State, r: string) {
    && (forall i, j ::
          0 <= i < |s.threads| && 0 <= j < |s.threads| && Concerns(s.threads[i], r) && Concerns(s.threads[j], r) ==>
            i == j)
    && (forall i :: 0 <= i < |s.threads| ==> Current(s.store, s.threads[i], r))
  }

  /** Requests concern the user they name, and a SEND its recipient. */
  lemma ConcernsAbout(q: Request, r: string)
    ensures Concerns(Starting(q), r) <==>
            match q
            case Send(_, to, _, _, _) => to == r
            case _ => q.user == r
  {
  }

  /** A thread that does not concern `r` leaves `r`'s counter alone. */
  lemma OthersQuiet(s: Store, h: History, t: Thread, c: Choice, r: string)
    requires !Concerns(t, r)
    ensures var e := ThreadStep(s, h, t, c);
            && (r in e.store <==> r in s) && (r in s ==> e.store[r].data == s[r].data)
            && (c.Go? ==> !Concerns(e.thread, r))
  {
    if c.Go? {
      if InTableService(t) { TableQuiet(s, h, t, r); }
      else if InConnect(t) { ConnectQuiet(s, h, t, c, r); }
      else { SendQuiet(s, h, t, c, r); }
    }
  }

  lemma TableQuiet(s: Store, h: History, t: Thread, r: string)
    requires InTableService(t) && t.user != r
    ensures var e := TableStep(s, h, t);
            (r in e.store <==> r in s) && (r in s ==> e.store[r].data == s[r].data) && !Concerns(e.thread, r)
  {
  }

  lemma ConnectQuiet(s: Store, h: History, t: Thread, c: Choice, r: string)
    requires InConnect(t) && t.user != r && c.Go?
    ensures var e := ConnectStep(s, h, t, c);
            (r in e.store <==> r in s) && (r in s ==> e.store[r].data == s[r].data) && !Concerns(e.thread, r)
  {
  }

  lemma SendQuiet(s: Store, h: History, t: Thread, c: Choice, r: string)
    requires !InTableService(t) && !InConnect(t) && !Concerns(t, r) && c.Go?
    ensures var e := SendStep(s, h, t, c);
            (r in e.store <==> r in s) && (r in s ==> e.store[r].data == s[r].data) && !Concerns(e.thread, r)
  {
  }

  /** Left alone, a thread stays current. */
  lemma OwnCurrent(s: Store, h: History, t: Thread, c: Choice, r: string)
    requires Current(s, t, r)
    ensures var e := ThreadStep(s, h, t, c);
            Current(e.store, e.thread, r) && (Concerns(e.thread, r) && c.Go? ==> Concerns(t, r))
  {
    if c.Go? {
      if InTableService(t) { TableCurrent(s, h, t, r); }
      else if InConnect(t) { ConnectCurrent(s, h, t, c, r); }
      else { SendCurrent(s, h, t, c, r); }
    }
  }

  lemma TableCurrent(s: Store, h: History, t: Thread, r: string)
    requires InTableService(t) && Current(s, t, r)
    ensures var e := TableStep(s, h, t); Current(e.store, e.thread, r) && (Concerns(e.thread, r) ==> Concerns(t, r))
  {
  }

  lemma ConnectCurrent(s: Store, h: History, t: Thread, c: Choice, r: string)
    requires InConnect(t) && Current(s, t, r) && c.Go?
    ensures var e := ConnectStep(s, h, t, c);
            Current(e.store, e.thread, r) && (Concerns(e.thread, r) ==> Concerns(t, r))
  {
  }

  lemma SendCurrent(s: Store, h: History, t: Thread, c: Choice, r: string)
    requires !InTableService(t) && !InConnect(t) && Current(s, t, r) && c.Go?
    ensures var e := SendStep(s, h, t, c); Current(e.store, e.thread, r) && (Concerns(e.thread, r) ==> Concerns(t, r))
  {
  }

  lemma StepUndisturbed(s: State, m: Move, r: string)
    requires m.thread < |s.threads| && Undisturbed(s, r)
    requires m.choice.Begin? && Concerns(Starting(m.choice.request), r) ==>
               forall i :: 0 <= i < |s.threads| && i != m.thread ==> !Concerns(s.threads[i], r)
    ensures Undisturbed(Next(s, m.thread, m.choice), r)
  {
    var t, s' := s.threads[m.thread], Next(s, m.thread, m.choice);
    OwnCurrent(s.store, s.log, t, m.choice, r);
    if !Concerns(t, r) {
      OthersQuiet(s.store, s.log, t, m.choice, r);
    }
    forall i | 0 <= i < |s'.threads| ensures Current(s'.store, s'.threads[i], r) {
      if i != m.thread {
        assert Current(s.store, s.threads[i], r);
      }
    }
  }

  /** Requests on `r` that do not overlap write fresh data only. */
  lemma {:induction false} ApartFresh(s: State, moves: seq<Move>, r: string)
    requires Schedule(|s.threads|, moves) && Apart(s, moves, r) && Undisturbed(s, r)
    ensures AllFresh(s, moves, r)
    decreases |moves|
  {
    if moves != [] {
      var m := moves[0];
      assert Current(s.store, s.threads[m.thread], r);
      StepUndisturbed(s, m, r);
      ApartFresh(Next(s, m.thread, m.choice), moves[1..], r);
    }
  }

  /** Identifiers are safe for requests on one user that do not overlap: the
      counter keeps count, and within a lap no identifier is taken twice. */
  lemma ApartCounts(s: State, moves: seq<Move>, r: string)
    requires Schedule(|s.threads|, moves) && Initial(s) && Counter(s.store, r) < MSG_ID_MAX_VALUE
    requires Unremoved(s, moves, r) && Apart(s, moves, r)
    ensures AlwaysCounted(s, moves, r, Counter(s.store, r)) && DistinctInLap(TakenIds(s, moves, r))
  {
    var base := Counter(s.store, r);
    assert Counted(s, r, base);
    ApartFresh(s, moves, r);
    CountsIffFresh(s, moves, r, base);
    TakenDistinct(s, moves, r, base);
  }

  // The size of the pool

  /** A user whose removal nobody asks for is not removed. */
  lemma {:induction false} UnaskedUnremoved(s: State, moves: seq<Move>, r: string, ks: set<nat>)
    requires Schedule(|s.threads|, moves) && Drainers(moves, r, ks)
    requires forall i :: 0 <= i < |s.threads| ==> !Removing(s.threads[i], r)
    ensures Unremoved(s, moves, r)
    decreases |moves|
  {
    if moves != [] {
      var m := moves[0];
      ThreadStepCalm(s.store, s.log, s.threads[m.thread], m.choice, r);
      assert Drainers(moves[1..], r, ks) by {
        forall k | 0 <= k < |moves[1..]| ensures moves[1..][k] == moves[k + 1] {}
      }
      UnaskedUnremoved(Next(s, m.thread, m.choice), moves[1..], r, ks);
    }
  }

  /** In a pool of `n` threads, for a user nobody removes, the counter keeps
      count in every schedule. */
  ghost predicate PoolCounts(n: nat) {
    forall s: State, moves: seq<Move>, r: string {:trigger Tried(n, s, moves, r)} ::
      Tried(n, s, moves, r) ==> AlwaysCounted(s, moves, r, Counter(s.store, r))
  }

  /** In a pool of `n` threads, for a user nobody removes, no schedule takes an
      identifier twice within a lap. */
  ghost predicate PoolDistinct(n: nat) {
    forall s: State, moves: seq<Move>, r: string {:trigger Tried(n, s, moves, r)} ::
      Tried(n, s, moves, r) ==> DistinctInLap(TakenIds(s, moves, r))
  }

  ghost predicate Tried(n: nat, s: State, moves: seq<Move>, r: string) {
    && |s.threads| == n && Schedule(n, moves) && Initial(s) && Counter(s.store, r) < MSG_ID_MAX_VALUE
    && Unremoved(s, moves, r)
  }

  lemma {:induction false} AloneApart(s: State, moves: seq<Move>, r: string)
    requires Schedule(|s.threads|, moves) && |s.threads| <= 1
    ensures Apart(s, moves, r)
    decreases |moves|
  {
    if moves != [] { AloneApart(Next(s, moves[0].thread, moves[0].choice), moves[1..], r); }
  }

  lemma {:induction false} CountedAtEnd(s: State, moves: seq<Move>, r: string, base: nat)
    requires Schedule(|s.threads|, moves) && AlwaysCounted(s, moves, r, base)
    ensures Counted(Play(s, moves), r, base)
    decreases |moves|
  {
    if moves != [] { CountedAtEnd(Next(s, moves[0].thread, moves[0].choice), moves[1..], r, base); }
  }

  /** Both are so exactly when one thread serves alone: two SENDs at once can
      take one identifier twice and move the counter by one. */
  lemma PoolCountsIff(n: nat)
    ensures PoolCounts(n) <==> n <= 1
    ensures PoolDistinct(n) <==> n <= 1
  {
    if n <= 1 {
      forall s: State, moves: seq<Move>, r: string {:trigger Tried(n, s, moves, r)} | Tried(n, s, moves, r)
        ensures AlwaysCounted(s, moves, r, Counter(s.store, r)) && DistinctInLap(TakenIds(s, moves, r))
      {
        AloneApart(s, moves, r);
        ApartCounts(s, moves, r);
      }
    } else {
      var s, moves := TwoAtOnce(n);
      assert Tried(n, s, moves, "r");
    }
  }

  lemma TwoAtOnce(n: nat) returns (s: State, moves: seq<Move>)
    requires n > 1
    ensures Tried(n, s, moves, "r") && Counter(s.store, "r") == 0
    ensures !AlwaysCounted(s, moves, "r", 0) && !DistinctInLap(TakenIds(s, moves, "r"))
  {
    var store := map["r" := Account(UserData(Connected, 0, 0, 0), map[])];
    s := State(store, Start, seq(n, _ => Idle));
    var early;
    early, moves := Schedules.OneIdTwice(s, 0, 1, "r", "r", "a", "b");
    UnaskedUnremoved(s, moves, "r", {});
    TakenTwice(s, early, moves, "r", 1);
    Miscounted(s, moves, "r");
  }

  lemma Miscounted(s: State, moves: seq<Move>, r: string)
    requires Schedule(|s.threads|, moves)
    requires Counter(Play(s, moves).store, r) == 1 && AllTakings(Play(s, moves).log, r) == 2
    ensures !AlwaysCounted(s, moves, r, 0)
  {
    assert !Counted(Play(s, moves), r, 0);
    if AlwaysCounted(s, moves, r, 0) { CountedAtEnd(s, moves, r, 0); }
  }

  /** Two takings, both after the last moment at which another identifier could be read. */
  lemma TakenTwice(s: State, early: seq<Move>, moves: seq<Move>, r: string, id: MsgId)
    requires Schedule(|s.threads|, moves) && Drainers(moves, r, {}) && Resting(s.threads) && s.log == Start
    requires early <= moves && Schedule(|s.threads|, early)
    requires forall k :: |early| <= k < |moves| ==> moves[k].choice.Go?
    requires Play(s, early).log == Start && AllTake(Play(s, early), id) && AllTakings(Play(s, moves).log, r) == 2
    ensures !DistinctInLap(TakenIds(s, moves, r))
  {
    var rest := moves[|early|..];
    assert moves == early + rest;
    TakenThen(s, early, rest, r);
    assert Drainers(early, r, {}) by {
      forall k | 0 <= k < |early| ensures early[k] == moves[k] {}
    }
    UnaskedUnremoved(s, early, r, {});
    UnaskedUnremoved(s, moves, r, {});
    TakenCount(s, early, r);
    TakenCount(s, moves, r);
    TakenAlike(Play(s, early), rest, r, id);
    var ids := TakenIds(s, moves, r);
    assert ids[0] == ids[1];
  }
}

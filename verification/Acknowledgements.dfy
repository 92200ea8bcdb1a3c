/** Which identifier the second acknowledgement of a SEND carries when services
    overtake each other: the one last read from the recipient's data, which is
    the letter's own exactly as long as nobody has taken another since. */
module Acknowledgements {
  import opened Types
  import opened Protocol
  import opened Interleaving
  import opened Counters

  /** The recipient's data that a SEND to `r` carries names the SEND's own identifier. */
  predicate Tagged(t: Thread, r: string) {
    match t
    case TakingId(l, d) => l.to == r ==> d.lastMsgId == l.msg.id
    case RereadingRecipient(l, d) => l.to == r ==> d.lastMsgId == l.msg.id
    case Passing(l, d) => l.to == r ==> d.lastMsgId == l.msg.id
    case DroppingRecipient(l, d) => l.to == r ==> d.lastMsgId == l.msg.id
    case Storing(l, d, _, _) => l.to == r ==> d.lastMsgId == l.msg.id
    case Answering(l, d, _, _) => l.to == r ==> d.lastMsgId == l.msg.id
    case Acking(l, d) => l.to == r ==> d.lastMsgId == l.msg.id
    case _ => true
  }

  /** A SEND that is about to read `r`'s data again finds its own identifier there. */
  predicate OwnOnFile(s: Store, t: Thread, r: string) {
    t.RereadingRecipient? && t.letter.to == r && r in s ==> s[r].data.lastMsgId == t.letter.msg.id
  }

  /** The attempt names the letter's recipient, sender and text, and the
      identifier in the data read last; so it is the letter's exactly when the
      data names the letter's identifier. */
  lemma AckCarries(s: Store, h: History, t: Thread, c: Choice)
    requires t.Acking? && c.Go?
    ensures var e, l := ThreadStep(s, h, t, c), t.letter;
            && e.thread == Idle && e.store == s && e.log.After? && e.log.past == h && e.log.event.AckTried?
            && var k := e.log.event.letter;
            && k.msg.id == t.data.lastMsgId
            && k.to == l.to && k.msg.sender == l.msg.sender && k.msg.content == l.msg.content
            && (k == l <==> Tagged(t, l.to))
  {
    var k := Letter(t.letter.to, t.letter.msg.(id := t.data.lastMsgId));
    assert k.msg.id == t.letter.msg.id ==> k.msg == t.letter.msg;
  }

  ghost predicate AllTagged(s: State, r: string) {
    forall i :: 0 <= i < |s.threads| ==> Tagged(s.threads[i], r)
  }

  ghost predicate AlwaysTagged(s: State, moves: seq<Move>, r: string)
    requires Schedule(|s.threads|, moves)
    decreases |moves|
  {
    && AllTagged(s, r)
    && (moves != [] ==> AlwaysTagged(Next(s, moves[0].thread, moves[0].choice), moves[1..], r))
  }

  ghost predicate AllOwn(s: State, moves: seq<Move>, r: string)
    requires Schedule(|s.threads|, moves)
    decreases |moves|
  {
    moves != [] ==>
      var m := moves[0];
      && (m.choice.Go? ==> OwnOnFile(s.store, s.threads[m.thread], r))
      && AllOwn(Next(s, m.thread, m.choice), moves[1..], r)
  }

  lemma SendTags(s: Store, h: History, t: Thread, c: Choice, r: string)
    requires c.Go? && !InTableService(t) && !InConnect(t) && Tagged(t, r)
    ensures Tagged(SendStep(s, h, t, c).thread, r) <==> OwnOnFile(s, t, r)
  {
  }

  lemma ConnectTags(s: Store, h: History, t: Thread, c: Choice, r: string)
    requires c.Go? && InConnect(t)
    ensures Tagged(ConnectStep(s, h, t, c).thread, r)
  {
  }

  lemma StepTags(s: Store, h: History, t: Thread, c: Choice, r: string)
    requires Tagged(t, r)
    ensures Tagged(ThreadStep(s, h, t, c).thread, r) <==> (c.Go? ==> OwnOnFile(s, t, r))
  {
    if c.Go? {
      if InTableService(t) {
        TableStepCalm(s, h, t, r);
        assert Tagged(TableStep(s, h, t).thread, r);
      } else if InConnect(t) {
        ConnectTags(s, h, t, c, r);
      } else {
        SendTags(s, h, t, c, r);
      }
    }
  }

  /** Along a schedule every SEND to `r` carries its own identifier, up to its
      acknowledgement, if and only if each finds it on file when it reads `r`'s
      data again. */
  lemma {:induction false} TaggedIffOwn(s: State, moves: seq<Move>, r: string)
    requires Schedule(|s.threads|, moves) && AllTagged(s, r)
    ensures AlwaysTagged(s, moves, r) <==> AllOwn(s, moves, r)
    decreases |moves|
  {
    if moves != [] {
      var m := moves[0];
      var t, s' := s.threads[m.thread], Next(s, m.thread, m.choice);
      StepTags(s.store, s.log, t, m.choice, r);
      assert s'.threads[m.thread] == ThreadStep(s.store, s.log, t, m.choice).thread;
      assert AllTagged(s', r) <==> Tagged(s'.threads[m.thread], r);
      if AllTagged(s', r) {
        TaggedIffOwn(s', moves[1..], r);
      }
    }
  }

  // Requests that do not overlap

  lemma SendOwns(s: Store, h: History, t: Thread, c: Choice, r: string)
    requires c.Go? && !InTableService(t) && !InConnect(t) && Sane(t) && OwnOnFile(s, t, r)
    ensures var e := SendStep(s, h, t, c); OwnOnFile(e.store, e.thread, r)
  {
  }

  lemma StepOwns(s: State, m: Move, r: string)
    requires m.thread < |s.threads| && Undisturbed(s, r)
    requires forall i :: 0 <= i < |s.threads| ==> Sane(s.threads[i]) && OwnOnFile(s.store, s.threads[i], r)
    ensures var s' := Next(s, m.thread, m.choice);
            forall i :: 0 <= i < |s'.threads| ==> Sane(s'.threads[i]) && OwnOnFile(s'.store, s'.threads[i], r)
  {
    var t, c, s' := s.threads[m.thread], m.choice, Next(s, m.thread, m.choice);
    ThreadStepSane(s.store, s.log, t, c);
    if !Concerns(t, r) { OthersQuiet(s.store, s.log, t, c, r); }
    forall i | 0 <= i < |s'.threads| ensures OwnOnFile(s'.store, s'.threads[i], r) {
      if i != m.thread {
        assert OwnOnFile(s.store, s.threads[i], r);
      } else if c.Go? {
        if InTableService(t) { TableStepCalm(s.store, s.log, t, r); }
        else if !InConnect(t) { SendOwns(s.store, s.log, t, c, r); }
      }
    }
  }

  lemma {:induction false} ApartOwn(s: State, moves: seq<Move>, r: string)
    requires Schedule(|s.threads|, moves) && Apart(s, moves, r) && Undisturbed(s, r)
    requires forall i :: 0 <= i < |s.threads| ==> Sane(s.threads[i]) && OwnOnFile(s.store, s.threads[i], r)
    ensures AllOwn(s, moves, r)
    decreases |moves|
  {
    if moves != [] {
      var m := moves[0];
      assert OwnOnFile(s.store, s.threads[m.thread], r);
      StepUndisturbed(s, m, r);
      StepOwns(s, m, r);
      ApartOwn(Next(s, m.thread, m.choice), moves[1..], r);
    }
  }

  /** Requests on one user that do not overlap acknowledge the letters they delivered. */
  lemma ApartTagged(s: State, moves: seq<Move>, r: string)
    requires Schedule(|s.threads|, moves) && Resting(s.threads) && Apart(s, moves, r)
    ensures AlwaysTagged(s, moves, r)
  {
    ApartOwn(s, moves, r);
    TaggedIffOwn(s, moves, r);
  }
}

/** What every serial run of the services keeps: message conservation,
    acknowledgements, identifiers, and replies as a function of history. */
module Accounting {
  import opened Types
  import opened Protocol

  function One(o: Option<Letter>, l: Letter): nat { if o == Some(l) then 1 else 0 }

  /** The books of every letter balance: its deliveries, discards and pending
      copy are the acceptances, plus the deliveries whose unset reply code read
      as an error. Inside a SEND one letter may still be owed its acceptance
      or its acknowledgement. */
  ghost predicate Balanced(w: World, owed: Option<Letter>, unacked: Option<Letter>) {
    forall l {:trigger TallyOf(w.log, l)} ::
      Books(TallyOf(w.log, l), Pending(w.store, l), One(owed, l), One(unacked, l))
  }

  predicate Books(t: Tally, pending: nat, owed: nat, unacked: nat) {
    && t.delivered + t.discarded + pending == t.accepted + t.stale + owed
    && t.delivered == t.acked + unacked
    && owed <= unacked + pending
  }

  /** At every moment of the history: no acknowledgement without a delivery,
      at most one delivery not yet acknowledged, and no acknowledgement before
      the SEND was answered with success. */
  ghost predicate AcksFollow(h: History) {
    match h
    case Start => true
    case After(past, _) =>
      AcksFollow(past) &&
      forall l {:trigger TallyOf(h, l)} ::
        var t := TallyOf(h, l); t.acked <= t.delivered <= t.acked + 1 && t.acked <= t.accepted + t.stale
  }

  ghost predicate Ledger(w: World, owed: Option<Letter>, unacked: Option<Letter>) {
    Balanced(w, owed, unacked) && AcksFollow(w.log)
  }

  lemma Entered(w: World, store: Store, e: Event, owed: Option<Letter>, unacked: Option<Letter>)
    requires AcksFollow(w.log) && Balanced(World(store, After(w.log, e)), owed, unacked)
    ensures Ledger(World(store, After(w.log, e)), owed, unacked)
  {
    var h := After(w.log, e);
    forall l {:trigger TallyOf(h, l)}
      ensures var t := TallyOf(h, l); t.acked <= t.delivered <= t.acked + 1 && t.acked <= t.accepted + t.stale
    {
      assert Books(TallyOf(h, l), Pending(store, l), One(owed, l), One(unacked, l));
    }
  }

  /** An event that touches no letter's books, with mailboxes as they were. */
  lemma QuietEntry(w: World, store: Store, e: Event, owed: Option<Letter>, unacked: Option<Letter>)
    requires Ledger(w, owed, unacked)
    requires e.Replied? || e.Refused? || e.Assigned? || e.Undelivered?
    requires forall l :: Pending(store, l) == Pending(w.store, l)
    ensures Ledger(World(store, After(w.log, e)), owed, unacked)
  {
    var w' := World(store, After(w.log, e));
    forall l {:trigger TallyOf(w'.log, l)}
      ensures Books(TallyOf(w'.log, l), Pending(w'.store, l), One(owed, l), One(unacked, l))
    {
      assert TallyOf(w'.log, l) == TallyOf(w.log, l);
    }
    Entered(w, store, e, owed, unacked);
  }

  lemma PassBooks(w: World, l: Letter, reached: bool)
    requires l.to in w.store && Ledger(w, None, None)
    ensures var w' := DoPass(w, l, reached);
            var flying := if w'.store[l.to].data.status == Connected then Some(l) else None;
            l.to in w'.store && Ledger(w', flying, flying)
  {
    var data := w.store[l.to].data.(lastMsgId := l.msg.id);
    var s1 := SetData(w.store, l.to, data);
    QuietEntry(w, s1, Assigned(l.to), None, None);
    var w1 := World(s1, After(w.log, Assigned(l.to)));
    if data.status == Connected {
      if reached {
        var h := After(w1.log, Delivered(l));
        forall k {:trigger TallyOf(h, k)}
          ensures Books(TallyOf(h, k), Pending(s1, k), One(Some(l), k), One(Some(l), k))
        {
          assert TallyOf(h, k) == Count(TallyOf(w1.log, k), Delivered(l), k);
        }
        Entered(w1, s1, Delivered(l), Some(l), Some(l));
      } else {
        QuietEntry(w1, Offline(s1, l.to), Undelivered(l), None, None);
      }
    }
  }

  /** A balanced entry about the letter `l`: every other letter's books stand. */
  lemma LetterEntry(w: World, store: Store, e: Event, l: Letter,
                    owed: Option<Letter>, unacked: Option<Letter>, owed': Option<Letter>, unacked': Option<Letter>)
    requires Ledger(w, owed, unacked)
    requires e.Delivered? || e.Stale? || e.Stored? || e.Answered? || e.AckTried?
    requires e.letter == l
    requires forall k :: k != l ==> Pending(store, k) == Pending(w.store, k)
    requires forall k :: k != l ==> One(owed', k) == One(owed, k) && One(unacked', k) == One(unacked, k)
    requires Books(Count(TallyOf(w.log, l), e, l), Pending(store, l), One(owed', l), One(unacked', l))
    ensures Ledger(World(store, After(w.log, e)), owed', unacked')
  {
    var h := After(w.log, e);
    forall k {:trigger TallyOf(h, k)} ensures Books(TallyOf(h, k), Pending(store, k), One(owed', k), One(unacked', k)) {
      assert TallyOf(h, k) == Count(TallyOf(w.log, k), e, k);
      assert Books(TallyOf(w.log, k), Pending(w.store, k), One(owed, k), One(unacked, k));
    }
    Entered(w, store, e, owed', unacked');
  }

  lemma SettleBooks(w: World, l: Letter, flag: int)
    requires l.to in w.store
    requires var flying := if w.store[l.to].data.status == Connected then Some(l) else None; Ledger(w, flying, flying)
    ensures Ledger(DoSettle(w, l, flag), None, None)
  {
    var online := w.store[l.to].data.status == Connected;
    var flying := if online then Some(l) else None;
    assert Books(TallyOf(w.log, l), Pending(w.store, l), One(flying, l), One(flying, l));
    var w1 := w;
    if online && flag != SRV_SUCCESS {
      LetterEntry(w, w.store, Stale(l), l, flying, flying, None, flying);
      w1 := Note(w, Stale(l));
    }
    var w2;
    if online && flag == SRV_SUCCESS {
      LetterEntry(w1, w1.store, Answered(l, SRV_SUCCESS), l, flying, flying, None, flying);
      w2 := Note(w1, Answered(l, SRV_SUCCESS));
    } else {
      assert Books(TallyOf(w1.log, l), Pending(w1.store, l), 0, One(flying, l));
      w2 := StoreBooks(w1, l, flying);
    }
    if online {
      assert Books(TallyOf(w2.log, l), Pending(w2.store, l), 0, One(flying, l));
      LetterEntry(w2, w2.store, AckTried(l), l, None, flying, None, None);
    }
  }

  /** Filing a letter makes it pending and changes no other letter's state. */
  lemma FilingPending(s: Store, l: Letter)
    requires l.to in s && l.msg.id !in s[l.to].mail
    ensures var s' := SetMail(s, l.to, s[l.to].mail[l.msg.id := l.msg]);
            && Pending(s, l) == 0 && Pending(s', l) == 1
            && forall k :: k != l ==> Pending(s', k) == Pending(s, k)
  {
  }

  /** A filed letter is owed its acceptance. */
  lemma FiledBooks(w: World, l: Letter, unacked: Option<Letter>)
    requires l.to in w.store && l.msg.id !in w.store[l.to].mail && Ledger(w, None, unacked)
    ensures var s := SetMail(w.store, l.to, w.store[l.to].mail[l.msg.id := l.msg]);
            Pending(s, l) == 1 && Ledger(World(s, After(w.log, Stored(l))), Some(l), unacked)
  {
    var s := SetMail(w.store, l.to, w.store[l.to].mail[l.msg.id := l.msg]);
    assert Books(TallyOf(w.log, l), Pending(w.store, l), 0, One(unacked, l));
    FilingPending(w.store, l);
    LetterEntry(w, s, Stored(l), l, None, unacked, Some(l), unacked);
  }

  /** Answering success pays for a filed letter. */
  lemma AcceptedBooks(w: World, l: Letter, unacked: Option<Letter>)
    requires Ledger(w, Some(l), unacked) && Pending(w.store, l) == 1
    ensures Ledger(World(w.store, After(w.log, Answered(l, SRV_SUCCESS))), None, unacked)
  {
    var t := TallyOf(w.log, l);
    assert Books(t, 1, 1, One(unacked, l));
    assert Books(t.(accepted := t.accepted + 1), 1, 0, One(unacked, l));
    LetterEntry(w, w.store, Answered(l, SRV_SUCCESS), l, Some(l), unacked, None, unacked);
  }

  lemma StoreBooks(w: World, l: Letter, unacked: Option<Letter>) returns (w': World)
    requires l.to in w.store && Ledger(w, None, unacked)
    ensures Ledger(w', None, unacked)
    ensures var mail := w.store[l.to].mail;
            w' == if l.msg.id in mail then Note(w, Answered(l, SRV_ERR_SEND_ANY))
                  else Note(Note(World(SetMail(w.store, l.to, mail[l.msg.id := l.msg]), w.log), Stored(l)),
                            Answered(l, SRV_SUCCESS))
  {
    var mail := w.store[l.to].mail;
    if l.msg.id in mail {
      assert Books(TallyOf(w.log, l), Pending(w.store, l), 0, One(unacked, l));
      LetterEntry(w, w.store, Answered(l, SRV_ERR_SEND_ANY), l, None, unacked, None, unacked);
      w' := Note(w, Answered(l, SRV_ERR_SEND_ANY));
    } else {
      FiledBooks(w, l, unacked);
      var w1 := World(SetMail(w.store, l.to, mail[l.msg.id := l.msg]), After(w.log, Stored(l)));
      AcceptedBooks(w1, l, unacked);
      w' := Note(w1, Answered(l, SRV_SUCCESS));
    }
  }

  lemma {:induction false} DrainBooks(w: World, u: string, picks: seq<Pick>)
    requires u in w.store && ValidDrain(w.store[u].mail, picks) && Ledger(w, None, None)
    requires SelfDescribing(w.store)
    ensures Ledger(DoDrain(w, u, picks), None, None)
    decreases |picks|
  {
    if picks != [] {
      var id := picks[0].id;
      var l := Letter(u, w.store[u].mail[id]);
      assert Books(TallyOf(w.log, l), Pending(w.store, l), 0, 0);
      if picks[0].sent {
        var s := SetMail(w.store, u, w.store[u].mail - {id});
        LetterEntry(w, s, Delivered(l), l, None, None, None, Some(l));
        var w1 := World(s, After(w.log, Delivered(l)));
        assert Books(TallyOf(w1.log, l), Pending(s, l), 0, 1);
        LetterEntry(w1, s, AckTried(l), l, None, Some(l), None, None);
        DrainBooks(Note(w1, AckTried(l)), u, picks[1..]);
      } else {
        QuietEntry(w, Offline(w.store, u), Undelivered(l), None, None);
      }
    }
  }

  lemma EraseBooks(w: World, u: string)
    requires u in w.store && Ledger(w, None, None) && SelfDescribing(w.store)
    ensures Ledger(World(w.store - {u}, After(w.log, Erased(u, w.store[u].mail))), None, None)
  {
    var e := Erased(u, w.store[u].mail);
    var w' := World(w.store - {u}, After(w.log, e));
    forall l {:trigger TallyOf(w'.log, l)} ensures Books(TallyOf(w'.log, l), Pending(w'.store, l), 0, 0) {
      assert TallyOf(w'.log, l) == Count(TallyOf(w.log, l), e, l);
      assert Books(TallyOf(w.log, l), Pending(w.store, l), 0, 0);
    }
    Entered(w, w'.store, e, None, None);
  }

  lemma {:induction false} DrainShape(w: World, u: string, picks: seq<Pick>)
    requires u in w.store && ValidDrain(w.store[u].mail, picks)
    requires SelfDescribing(w.store)
    ensures SelfDescribing(DoDrain(w, u, picks).store)
    decreases |picks|
  {
    if picks != [] && picks[0].sent {
      var l := Letter(u, w.store[u].mail[picks[0].id]);
      var w1 := World(SetMail(w.store, u, w.store[u].mail - {picks[0].id}), After(w.log, Delivered(l)));
      DrainShape(Note(w1, AckTried(l)), u, picks[1..]);
    }
  }

  /** Every service keeps the books. */
  lemma ServiceBooks(w: World, r: Request)
    requires Enabled(w, r) && Ledger(w, None, None) && SelfDescribing(w.store)
    ensures Ledger(Exec(w, r), None, None) && SelfDescribing(Exec(w, r).store)
  {
    var w' := Exec(w, r);
    match r {
      case Register(u, _, _) =>
        QuietEntry(w, w'.store, w'.log.event, None, None);
      case Disconnect(u) =>
        QuietEntry(w, w'.store, w'.log.event, None, None);
      case Unregister(u) =>
        if u in w.store {
          EraseBooks(w, u);
          var w1 := World(w.store - {u}, After(w.log, Erased(u, w.store[u].mail)));
          QuietEntry(w1, w1.store, Replied(UNREGISTER, u, SRV_SUCCESS), None, None);
        } else {
          QuietEntry(w, w.store, w'.log.event, None, None);
        }
      case Connect(u, portText, peer, picks) =>
        var w1 := DoGreet(w, u, portText, peer);
        QuietEntry(w, w1.store, w1.log.event, None, None);
        if u in w.store {
          DrainBooks(w1, u, picks);
          DrainShape(w1, u, picks);
        }
      case Send(sender, recipient, content, reached, flag) =>
        if sender in w.store && recipient in w.store {
          var l := NewLetter(w.store, sender, recipient, content);
          PassBooks(w, l, reached);
          SettleBooks(DoPass(w, l, reached), l, flag);
        } else {
          QuietEntry(w, w.store, w'.log.event, None, None);
        }
    }
  }

  lemma {:induction false} RunBooks(rs: seq<Request>, w: World)
    requires Reaches(rs, w)
    ensures Ledger(w, None, None) && SelfDescribing(w.store)
  {
    if rs != [] {
      var before :| Reaches(Front(rs), before) && Step(before, Last(rs), w);
      RunBooks(Front(rs), before);
      ServiceBooks(before, Last(rs));
    }
  }

  /** Conservation over every serial run, whatever the network does: for each
      letter, deliveries, discards by UNREGISTER and the pending copy add up to
      the acceptances, plus the deliveries whose unset code was misread. */
  lemma Conservation(rs: seq<Request>, w: World, l: Letter)
    requires Reaches(rs, w)
    ensures var t := TallyOf(w.log, l);
            t.delivered + t.discarded + Pending(w.store, l) == t.accepted + t.stale
  {
    RunBooks(rs, w);
    assert Books(TallyOf(w.log, l), Pending(w.store, l), 0, 0);
  }

  /** What a SEND is answered, as the number on the wire, from any accounts: 1
      if a user is unknown; 2 if the letter has to be stored and its file name is
      taken; otherwise 0. It has to be stored unless it was delivered at once
      and the unset code reads as success. */
  lemma SendAnswered(w: World, from: string, to: string, text: string, reached: bool, flag: int)
    ensures var w' := DoSend(w, from, to, text, reached, flag);
            if from !in w.store || to !in w.store then w' == Note(w, Refused(from, to, 1))
            else
              var l := NewLetter(w.store, from, to, text);
              var atOnce := w.store[to].data.status == Connected && reached;
              var code := if !(atOnce && flag == 0) && l.msg.id in w.store[to].mail then 2 else 0;
              && w'.log.After?
              && (if atOnce then w'.log.event == AckTried(l) && w'.log.past.After?
                                  && w'.log.past.event == Answered(l, code)
                  else w'.log.event == Answered(l, code))
  {
  }

  // Runs in which the unset reply code reads as success

  /** `send_msg_reply.server_error_code`, which nothing sets, reads SRV_SUCCESS. */
  ghost predicate FlagsClear(rs: seq<Request>) {
    forall i :: 0 <= i < |rs| && rs[i].Send? ==> rs[i].flag == SRV_SUCCESS
  }

  /** Nobody online has anything waiting, and no delivery was misread. */
  ghost predicate Tidy(w: World) {
    && (forall u :: u in w.store && w.store[u].data.status == Connected ==> w.store[u].mail == map[])
    && (forall l {:trigger TallyOf(w.log, l)} :: TallyOf(w.log, l).stale == 0)
  }

  function SentIds(picks: seq<Pick>): set<MsgId> {
    if picks == [] then {} else (if picks[0].sent then {picks[0].id} else {}) + SentIds(picks[1..])
  }

  /** Every turn of the mailbox loop but a last failing one delivers. */
  ghost predicate FullyDrained(picks: seq<Pick>) { picks == [] || picks[|picks| - 1].sent }

  lemma {:induction false} DrainTurns(mail: Mailbox, picks: seq<Pick>)
    requires ValidDrain(mail, picks)
    ensures |picks| <= |mail| && SentIds(picks) <= mail.Keys
    ensures FullyDrained(picks) ==> SentIds(picks) == mail.Keys
    ensures !FullyDrained(picks) ==> picks[|picks| - 1].id in mail.Keys - SentIds(picks)
    decreases |picks|
  {
    if picks != [] {
      var id := picks[0].id;
      OneLess(mail, id);
      if picks[0].sent {
        DrainTurns(mail - {id}, picks[1..]);
        assert picks[1..] != [] ==> picks[1..][|picks| - 2] == picks[|picks| - 1];
      }
    }
  }

  lemma {:induction false} DrainAccount(w: World, u: string, picks: seq<Pick>)
    requires u in w.store && ValidDrain(w.store[u].mail, picks)
    ensures DoDrain(w, u, picks).store == w.store[u := Drained(w.store[u], picks)]
    decreases |picks|
  {
    if picks == [] {
      assert w.store[u].mail - {} == w.store[u].mail;
    } else if picks[0].sent {
      var id, mail := picks[0].id, w.store[u].mail;
      var w1 := Note(World(SetMail(w.store, u, mail - {id}), After(w.log, Delivered(Letter(u, mail[id])))),
                     AckTried(Letter(u, mail[id])));
      DrainAccount(w1, u, picks[1..]);
      assert (mail - {id}) - SentIds(picks[1..]) == mail - SentIds(picks);
      assert FullyDrained(picks) <==> FullyDrained(picks[1..]) by {
        assert picks[1..] != [] ==> picks[1..][|picks| - 2] == picks[|picks| - 1];
      }
    } else {
      assert SentIds(picks) == {};
      assert w.store[u].mail - {} == w.store[u].mail;
    }
  }

  /** The account after the mailbox loop: the sent messages are gone, and a
      failure has taken the user offline. */
  ghost function Drained(a: Account, picks: seq<Pick>): Account {
    Account(if FullyDrained(picks) then a.data else a.data.(status := Disconnected), a.mail - SentIds(picks))
  }

  /** The mailbox loop, on its own: whatever the listing order and the failure
      pattern, it takes at most one turn per message; a full success empties
      the mailbox, and the first failure keeps that message and every unsent
      one and leaves the user disconnected. No other account changes. */
  lemma DrainOutcome(w: World, u: string, picks: seq<Pick>)
    requires u in w.store && ValidDrain(w.store[u].mail, picks)
    ensures DoDrain(w, u, picks).store == w.store[u := Drained(w.store[u], picks)]
    ensures |picks| <= |w.store[u].mail|
    ensures FullyDrained(picks) ==> Drained(w.store[u], picks) == Account(w.store[u].data, map[])
    ensures !FullyDrained(picks) ==>
              var a := Drained(w.store[u], picks);
              picks[|picks| - 1].id in a.mail && a.data.status == Disconnected
  {
    DrainAccount(w, u, picks);
    DrainTurns(w.store[u].mail, picks);
  }

  /** The loop delivers exactly the messages it removes, each once, and tries
      one acknowledgement for each. */
  lemma {:induction false} DrainDelivers(w: World, u: string, picks: seq<Pick>, l: Letter)
    requires u in w.store && ValidDrain(w.store[u].mail, picks) && SelfDescribing(w.store)
    ensures var t, t' := TallyOf(w.log, l), TallyOf(DoDrain(w, u, picks).log, l);
            var gone := Pending(w.store, l) - Pending(DoDrain(w, u, picks).store, l);
            && t'.delivered == t.delivered + gone && t'.acked == t.acked + gone
            && t' == t.(delivered := t'.delivered, acked := t'.acked)
    decreases |picks|
  {
    if picks != [] {
      var id, mail := picks[0].id, w.store[u].mail;
      var k := Letter(u, mail[id]);
      if picks[0].sent {
        var w1 := World(SetMail(w.store, u, mail - {id}), After(w.log, Delivered(k)));
        assert TallyOf(w1.log, l) == Count(TallyOf(w.log, l), Delivered(k), l);
        var w2 := Note(w1, AckTried(k));
        DrainDelivers(w2, u, picks[1..], l);
      }
    }
  }

  lemma SendTidy(w: World, l: Letter, reached: bool)
    requires l.to in w.store && Tidy(w)
    ensures Tidy(DoSettle(DoPass(w, l, reached), l, SRV_SUCCESS))
  {
    var w' := DoSettle(DoPass(w, l, reached), l, SRV_SUCCESS);
    forall k {:trigger TallyOf(w'.log, k)} ensures TallyOf(w'.log, k).stale == 0 {
      SendStale(w, l, reached, SRV_SUCCESS, k);
    }
  }

  /** A SEND is misread exactly when it is delivered at once and the unset
      code is not SRV_SUCCESS. */
  lemma SendStale(w: World, l: Letter, reached: bool, flag: int, k: Letter)
    requires l.to in w.store
    ensures TallyOf(DoSettle(DoPass(w, l, reached), l, flag).log, k).stale
         == TallyOf(w.log, k).stale
            + if k == l && flag != SRV_SUCCESS && reached && w.store[l.to].data.status == Connected then 1 else 0
  {
    var w1 := DoPass(w, l, reached);
    var h0 := After(w.log, Assigned(l.to));
    assert TallyOf(h0, k) == TallyOf(w.log, k);
    assert TallyOf(w1.log, k).stale == TallyOf(w.log, k).stale;
    var online := w1.store[l.to].data.status == Connected;
    var h2 := if online && flag != SRV_SUCCESS then After(w1.log, Stale(l)) else w1.log;
    assert TallyOf(h2, k) == if h2 == w1.log then TallyOf(w1.log, k) else Count(TallyOf(w1.log, k), Stale(l), k);
    var w' := DoSettle(w1, l, flag);
    var past := w'.log.past;
    assert TallyOf(w'.log, k) == Count(TallyOf(past, k), w'.log.event, k);
    if past.After? { assert TallyOf(past, k) == Count(TallyOf(past.past, k), past.event, k); }
  }

  lemma ConnectTidy(w: World, u: string, portText: string, peer: Option<int>, picks: seq<Pick>)
    requires u in w.store && ValidDrain(w.store[u].mail, picks) && Tidy(w) && SelfDescribing(w.store)
    ensures Tidy(DoConnect(w, u, portText, peer, picks))
  {
    var w1 := DoGreet(w, u, portText, peer);
    var w' := DoDrain(w1, u, picks);
    DrainOutcome(w1, u, picks);
    forall l {:trigger TallyOf(w'.log, l)} ensures TallyOf(w'.log, l).stale == 0 {
      DrainDelivers(w1, u, picks, l);
      assert TallyOf(w1.log, l) == TallyOf(w.log, l);
    }
  }

  lemma ServiceTidy(w: World, r: Request)
    requires Enabled(w, r) && Tidy(w) && SelfDescribing(w.store)
    requires r.Send? ==> r.flag == SRV_SUCCESS
    ensures Tidy(Exec(w, r))
  {
    var w' := Exec(w, r);
    match r {
      case Send(sender, recipient, content, reached, flag) =>
        if sender in w.store && recipient in w.store {
          SendTidy(w, NewLetter(w.store, sender, recipient, content), reached);
        }
      case Connect(u, portText, peer, picks) =>
        if u in w.store {
          ConnectTidy(w, u, portText, peer, picks);
        }
      case Unregister(u) =>
        if u in w.store {
          var h := After(w.log, Erased(u, w.store[u].mail));
          forall l {:trigger TallyOf(w'.log, l)} ensures TallyOf(w'.log, l).stale == 0 {
            assert TallyOf(w'.log, l) == TallyOf(h, l);
            assert TallyOf(h, l) == Count(TallyOf(w.log, l), h.event, l);
          }
        }
      case _ =>
    }
  }

  lemma {:induction false} RunTidy(rs: seq<Request>, w: World)
    requires Reaches(rs, w) && FlagsClear(rs)
    ensures Tidy(w)
  {
    if rs != [] {
      var before :| Reaches(Front(rs), before) && Step(before, Last(rs), w);
      RunTidy(Front(rs), before);
      RunBooks(Front(rs), before);
      ServiceTidy(before, Last(rs));
    }
  }

  /** Exactly once: when the unset code reads as success, every acceptance of a
      letter is matched by one delivery, one discard by UNREGISTER or the one
      pending copy; nobody who is online has anything pending. */
  lemma ExactlyOnce(rs: seq<Request>, w: World, l: Letter)
    requires Reaches(rs, w) && FlagsClear(rs)
    ensures var t := TallyOf(w.log, l); t.accepted == t.delivered + t.discarded + Pending(w.store, l)
    ensures l.to in w.store && w.store[l.to].data.status == Connected ==> w.store[l.to].mail == map[]
  {
    Conservation(rs, w, l);
    RunTidy(rs, w);
  }

  /** After any service every delivery has had exactly one acknowledgement
      attempt, and at every moment before, none without its delivery. */
  lemma AcksSound(rs: seq<Request>, w: World, l: Letter)
    requires Reaches(rs, w)
    ensures TallyOf(w.log, l).acked == TallyOf(w.log, l).delivered
    ensures AcksFollow(w.log)
  {
    RunBooks(rs, w);
    assert Books(TallyOf(w.log, l), Pending(w.store, l), 0, 0);
  }

  lemma {:induction false} PrefixFollows(p: History, h: History)
    requires AcksFollow(h) && Prefix(p, h)
    ensures AcksFollow(p)
  {
    if p != h { PrefixFollows(p, h.past); }
  }

  lemma {:induction false} CountedHappened(h: History, l: Letter)
    ensures TallyOf(h, l).delivered > 0 ==> Happened(h, Delivered(l))
    ensures TallyOf(h, l).accepted > 0 ==> Happened(h, Answered(l, SRV_SUCCESS))
    ensures TallyOf(h, l).stale > 0 ==> Happened(h, Stale(l))
  {
    if h.After? { CountedHappened(h.past, l); }
  }

  // The first reply comes first

  ghost predicate IsAnswered(h: History, l: Letter) {
    h.After? && ((h.event.Answered? && h.event.letter == l) || IsAnswered(h.past, l))
  }

  /** At every moment of the history, an acknowledgement for a letter follows
      an answer to its SEND. */
  ghost predicate AnswersLead(h: History) {
    h.After? ==> AnswersLead(h.past) && (h.event.AckTried? ==> IsAnswered(h.past, h.event.letter))
  }

  ghost predicate InOrder(w: World) {
    AnswersLead(w.log) && forall l {:trigger Pending(w.store, l)} :: Pending(w.store, l) == 1 ==> IsAnswered(w.log, l)
  }

  /** An event that files nothing, and an acknowledgement only of an answered letter. */
  lemma OrderEntry(w: World, store: Store, e: Event)
    requires InOrder(w) && (e.AckTried? ==> IsAnswered(w.log, e.letter))
    requires forall l {:trigger Pending(store, l)} :: Pending(store, l) == 1 ==> Pending(w.store, l) == 1
    ensures InOrder(World(store, After(w.log, e)))
  {
    var w' := World(store, After(w.log, e));
    forall l {:trigger Pending(w'.store, l)} | Pending(w'.store, l) == 1 ensures IsAnswered(w'.log, l) {
      assert Pending(w.store, l) == 1;
    }
  }

  lemma {:induction false} DrainOrder(w: World, u: string, picks: seq<Pick>)
    requires u in w.store && ValidDrain(w.store[u].mail, picks)
    requires SelfDescribing(w.store) && InOrder(w)
    ensures InOrder(DoDrain(w, u, picks))
    decreases |picks|
  {
    if picks != [] {
      var id := picks[0].id;
      var l := Letter(u, w.store[u].mail[id]);
      assert Pending(w.store, l) == 1;
      if picks[0].sent {
        var s := SetMail(w.store, u, w.store[u].mail - {id});
        OrderEntry(w, s, Delivered(l));
        var w1 := World(s, After(w.log, Delivered(l)));
        OrderEntry(w1, s, AckTried(l));
        DrainOrder(Note(w1, AckTried(l)), u, picks[1..]);
      } else {
        OrderEntry(w, Offline(w.store, u), Undelivered(l));
      }
    }
  }

  lemma PassOrder(w: World, l: Letter, reached: bool)
    requires l.to in w.store && InOrder(w)
    ensures l.to in DoPass(w, l, reached).store && InOrder(DoPass(w, l, reached))
  {
    var data := w.store[l.to].data.(lastMsgId := l.msg.id);
    var w1 := Note(World(SetData(w.store, l.to, data), w.log), Assigned(l.to));
    OrderEntry(w, w1.store, Assigned(l.to));
    OrderEntry(w1, w1.store, Delivered(l));
    OrderEntry(w1, Offline(w1.store, l.to), Undelivered(l));
  }

  /** The answer and, if the recipient is online, the acknowledgement. */
  lemma AnswerOrder(w: World, l: Letter, code: int, online: bool)
    requires AnswersLead(w.log)
    requires forall k {:trigger Pending(w.store, k)} :: k != l && Pending(w.store, k) == 1 ==> IsAnswered(w.log, k)
    ensures var w1 := Note(w, Answered(l, code)); InOrder(if online then Note(w1, AckTried(l)) else w1)
  {
    var w1 := Note(w, Answered(l, code));
    forall k {:trigger Pending(w1.store, k)} | Pending(w1.store, k) == 1 ensures IsAnswered(w1.log, k) {
      assert k != l ==> IsAnswered(w.log, k);
    }
    OrderEntry(w1, w1.store, AckTried(l));
  }

  lemma SettleOrder(w: World, l: Letter, flag: int)
    requires l.to in w.store && InOrder(w)
    ensures InOrder(DoSettle(w, l, flag))
  {
    var online := w.store[l.to].data.status == Connected;
    OrderEntry(w, w.store, Stale(l));
    var w1 := if online && flag != SRV_SUCCESS then Note(w, Stale(l)) else w;
    assert InOrder(w1);
    var mail := w1.store[l.to].mail;
    if online && flag == SRV_SUCCESS {
      AnswerOrder(w1, l, SRV_SUCCESS, online);
    } else if l.msg.id in mail {
      AnswerOrder(w1, l, SRV_ERR_SEND_ANY, online);
    } else {
      var w2 := World(SetMail(w1.store, l.to, mail[l.msg.id := l.msg]), After(w1.log, Stored(l)));
      FilingPending(w1.store, l);
      forall k {:trigger Pending(w2.store, k)} | k != l && Pending(w2.store, k) == 1 ensures IsAnswered(w2.log, k) {
        assert Pending(w1.store, k) == 1;
      }
      AnswerOrder(w2, l, SRV_SUCCESS, online);
    }
  }

  lemma ServiceOrder(w: World, r: Request)
    requires Enabled(w, r) && InOrder(w) && SelfDescribing(w.store)
    ensures InOrder(Exec(w, r))
  {
    var w' := Exec(w, r);
    match r {
      case Unregister(u) =>
        var w1 := if u in w.store then World(w.store - {u}, After(w.log, Erased(u, w.store[u].mail))) else w;
        if u in w.store { OrderEntry(w, w1.store, w1.log.event); }
        OrderEntry(w1, w1.store, w'.log.event);
      case Connect(u, portText, peer, picks) =>
        var w1 := DoGreet(w, u, portText, peer);
        OrderEntry(w, w1.store, w1.log.event);
        if u in w.store { DrainOrder(w1, u, picks); }
      case Send(sender, recipient, content, reached, flag) =>
        if sender in w.store && recipient in w.store {
          var l := NewLetter(w.store, sender, recipient, content);
          PassOrder(w, l, reached);
          SettleOrder(DoPass(w, l, reached), l, flag);
        } else {
          OrderEntry(w, w.store, w'.log.event);
        }
      case _ => OrderEntry(w, w'.store, w'.log.event);
    }
  }

  lemma {:induction false} RunOrder(rs: seq<Request>, w: World)
    requires Reaches(rs, w)
    ensures InOrder(w)
  {
    if rs != [] {
      var before :| Reaches(Front(rs), before) && Step(before, Last(rs), w);
      RunOrder(Front(rs), before);
      RunBooks(Front(rs), before);
      ServiceOrder(before, Last(rs));
    }
  }

  lemma {:induction false} PrefixLeads(p: History, h: History)
    requires AnswersLead(h) && Prefix(p, h)
    ensures AnswersLead(p)
  {
    if p != h { PrefixLeads(p, h.past); }
  }

  /** A second acknowledgement for a letter is only ever attempted after that
      letter was delivered and after its sender was sent the first reply, on
      the direct path and through the mailbox alike; and that reply was a
      success unless the unset code was misread. */
  lemma AckNeedsDelivery(rs: seq<Request>, w: World, past: History, l: Letter)
    requires Reaches(rs, w) && Prefix(After(past, AckTried(l)), w.log)
    ensures Happened(past, Delivered(l)) && IsAnswered(past, l)
    ensures Happened(past, Answered(l, SRV_SUCCESS)) || Happened(past, Stale(l))
  {
    AcksSound(rs, w, l);
    RunOrder(rs, w);
    var h := After(past, AckTried(l));
    PrefixFollows(h, w.log);
    PrefixLeads(h, w.log);
    assert TallyOf(h, l) == Count(TallyOf(past, l), AckTried(l), l);
    CountedHappened(past, l);
  }
}

/** The file tree as an implementation of a map from usernames to accounts:
    the representation relation, and what each operation of
    src/dbms/dbms.c does on either side of it. */
module Refinement {
  import opened Types
  import opened FileTree
  import opened Paths
  import opened Decimal

  /** The places that exist while the accounts are `m`. */
  ghost predicate Known(m: Store, a: Place) {
    a.user in m && (a.LetterOf? ==> a.id in m[a.user].mail)
  }

  /** What stands at a place: a directory, the user's data, or the message of
      the mailbox that the file is named after. */
  ghost function NodeAt(m: Store, a: Place): Node
    requires Known(m, a)
  {
    match a
    case UserOf(u) => File(Some(Entry(u, UserPart(m[u].data))))
    case LetterOf(u, i) => File(Some(Entry(u, MessagePart(m[u].mail[i]))))
    case _ => Directory
  }

  /** Below the database directory the tree holds exactly the places of `m`. */
  ghost predicate Represents(path: Place -> Path, t: Tree, m: Store) {
    && WellFormed(t) && IsDirectory(t, USERS)
    && SelfDescribing(m)
    && (forall u :: u in m ==> Nameable(u))
    && (forall a :: path(a) in t <==> Known(m, a))
    && (forall a :: Known(m, a) ==> t[path(a)] == NodeAt(m, a))
    && (forall p {:trigger InDatabase(p)} :: InDatabase(p) && p in t ==> exists a :: p == path(a))
  }

  /** `db_io_op_usr_ent` on the tree: result code, the caller's entry, the tree. */
  ghost function TreeIo(t: Tree, p: Path, e: Entry, mode: Mode): (int, Entry, Tree)
    requires mode != OVERWRITE && p != []
  {
    if mode == DELETE then
      if p in t then (DBMS_SUCCESS, e, Without(t, p))
      else (if Absence(t, p) == ENOENT then DBMS_ERR_NOT_EXISTS else -1, e, t)
    else
      var (errno, t') := OpenFile(t, p, mode);
      if errno == ENOENT then (DBMS_ERR_NOT_EXISTS, e, t')
      else if errno != NoError then (DBMS_ERR_ANY, e, t')
      else if mode != READ then (DBMS_SUCCESS, e, t'[p := File(Some(e))])
      else if t[p].File? && t[p].content.Some? then (DBMS_SUCCESS, t[p].content.value, t')
      else (DBMS_ERR_ANY, e, t')
  }

  /** `db_io_op_usr_ent` on the accounts. */
  function StoreIo(m: Store, e: Entry, mode: Mode): (int, Entry, Store)
    requires mode != OVERWRITE && (mode == DELETE ==> e.part.MessagePart? || e.username !in m)
  {
    var u := e.username;
    if u !in m then (DBMS_ERR_NOT_EXISTS, e, m) else
      var Account(data, mail) := m[u];
      match e.part
      case UserPart(d) => (
        match mode
        case READ => (DBMS_SUCCESS, Entry(u, UserPart(data)), m)
        case MODIFY => (DBMS_SUCCESS, e, m[u := Account(d, mail)])
        case _ => (DBMS_ERR_ANY, e, m))
      case MessagePart(msg) =>
        if msg.id !in mail then
          if mode == CREATE then (DBMS_SUCCESS, e, m[u := Account(data, mail[msg.id := msg])])
          else (DBMS_ERR_NOT_EXISTS, e, m)
        else
          match mode
          case READ => (DBMS_SUCCESS, Entry(u, MessagePart(mail[msg.id])), m)
          case MODIFY => (DBMS_SUCCESS, e, m[u := Account(data, mail[msg.id := msg])])
          case DELETE => (DBMS_SUCCESS, e, m[u := Account(data, mail - {msg.id})])
          case _ => (DBMS_ERR_ANY, e, m)
  }

  /** The accounts a tree stands for are determined by the tree. */
  lemma AccountsDetermined(path: Place -> Path, t: Tree, m: Store, m': Store)
    requires Represents(path, t, m) && Represents(path, t, m')
    ensures m == m'
  {
    assert forall a :: Known(m, a) <==> path(a) in t;
    forall u ensures u in m <==> u in m' {
      assert Known(m, TableOf(u)) <==> Known(m', TableOf(u));
    }
    forall u | u in m ensures m[u] == m'[u] {
      assert Known(m, UserOf(u)) && Known(m', UserOf(u));
      assert NodeAt(m, UserOf(u)) == NodeAt(m', UserOf(u));
      forall i ensures i in m[u].mail <==> i in m'[u].mail {
        assert Known(m, LetterOf(u, i)) <==> Known(m', LetterOf(u, i));
      }
      forall i | i in m[u].mail ensures m[u].mail[i] == m'[u].mail[i] {
        var a := LetterOf(u, i);
        assert Known(m, a) && Known(m', a);
        assert NodeAt(m, a) == NodeAt(m', a);
      }
      assert m[u].mail == m'[u].mail;
    }
  }

  /** Trees with the same accounts agree on everything below the database directory. */
  lemma TreeDetermined(path: Place -> Path, t: Tree, t': Tree, m: Store, p: Path)
    requires Represents(path, t, m) && Represents(path, t', m)
    requires InDatabase(p) && p in t
    ensures p in t' && t'[p] == t[p]
  {
    var a :| p == path(a);
    assert Known(m, a);
  }

  /** Why a lookup fails is decided one step up. */
  lemma AbsenceByParent(t: Tree, p: Path)
    requires WellFormed(t) && p != [] && p !in t
    ensures Absence(t, p) == if Parent(p) !in t then Absence(t, Parent(p))
                             else if t[Parent(p)].File? then ENOTDIR else ENOENT
  {
    var q := Parent(p);
    forall k | 0 <= k < |q| ensures p[..k] == q[..k] {}
    assert p[..|q|] == q;
    if q in t {
      forall k | 0 <= k < |q| ensures !(p[..k] in t && t[p[..k]].File?) {
        AncestorsPresent(t, q, k);
      }
    }
  }

  /** Under the representation a missing place is reported as missing. */
  lemma MissingIsENOENT(path: Place -> Path, t: Tree, m: Store, a: Place)
    requires Scheme(path) && Represents(path, t, m) && !Known(m, a)
    ensures path(a) !in t && path(a) != [] && Absence(t, path(a)) == ENOENT
  {
    AbsenceByParent(t, path(a));
    assert Known(m, TableOf(a.user)) ==> t[path(TableOf(a.user))] == Directory;
    assert Known(m, MailOf(a.user)) ==> t[path(MailOf(a.user))] == Directory;
    if !Known(m, TableOf(a.user)) {
      AbsenceByParent(t, path(TableOf(a.user)));
    }
    if a.LetterOf? && !Known(m, MailOf(a.user)) {
      AbsenceByParent(t, path(MailOf(a.user)));
    }
  }

  lemma StillWellFormed(t: Tree, p: Path, n: Node)
    requires WellFormed(t) && p != [] && IsDirectory(t, Parent(p)) && (p in t ==> t[p].File?)
    ensures WellFormed(t[p := n])
  {
  }

  /** `m'` differs from `m` in what stands at the place `a` alone. */
  ghost predicate Changes(m: Store, m': Store, a: Place) {
    && m'.Keys == m.Keys && a.user in m
    && SelfDescribing(m')
    && (forall b :: b != a ==> (Known(m, b) <==> Known(m', b)))
    && (forall b :: b != a && Known(m, b) ==> NodeAt(m, b) == NodeAt(m', b))
  }

  lemma UserChange(m: Store, u: string, d: UserData)
    requires u in m && SelfDescribing(m)
    ensures Changes(m, m[u := Account(d, m[u].mail)], UserOf(u))
  {
  }

  lemma LetterChange(m: Store, u: string, msg: Message)
    requires u in m && SelfDescribing(m)
    ensures Changes(m, SetMail(m, u, m[u].mail[msg.id := msg]), LetterOf(u, msg.id))
  {
  }

  lemma LetterGone(m: Store, u: string, id: MsgId)
    requires u in m && SelfDescribing(m)
    ensures Changes(m, SetMail(m, u, m[u].mail - {id}), LetterOf(u, id))
  {
  }

  /** Writing a leaf of the layout, new or old. */
  lemma PlaceWritten(path: Place -> Path, t: Tree, m: Store, m': Store, a: Place)
    requires Scheme(path) && Represents(path, t, m) && Changes(m, m', a)
    requires (a.UserOf? || a.LetterOf?) && Known(m', a)
    ensures Represents(path, t[path(a) := NodeAt(m', a)], m')
  {
    assert Known(m, TableOf(a.user)) && Known(m, MailOf(a.user));
    assert IsDirectory(t, Parent(path(a)));
    assert path(a) in t ==> t[path(a)].File?;
    StillWellFormed(t, path(a), NodeAt(m', a));
    var t' := t[path(a) := NodeAt(m', a)];
    forall b ensures path(b) in t' <==> Known(m', b) {}
    forall b | Known(m', b) ensures t'[path(b)] == NodeAt(m', b) {}
  }

  /** Removing a message file. */
  lemma PlaceRemoved(path: Place -> Path, t: Tree, m: Store, m': Store, a: Place)
    requires Scheme(path) && Represents(path, t, m) && Changes(m, m', a)
    requires a.LetterOf? && Known(m, a) && !Known(m', a)
    ensures Represents(path, Without(t, path(a)), m')
  {
    FileIsLeaf(t, path(a));
    LeafRemoved(t, path(a));
  }

  /** Truncating or creating a file and then writing it is one update. */
  lemma Rewritten(t: Tree, p: Path, a: Node, b: Node)
    ensures t[p := a][p := b] == t[p := b]
  {
  }

  lemma UserIoRefines(path: Place -> Path, t: Tree, m: Store, e: Entry, mode: Mode)
    requires Scheme(path) && Represents(path, t, m)
    requires mode != OVERWRITE && (mode == DELETE ==> e.username !in m)
    requires e.part.UserPart? && path(PlaceOf(e)) != []
    ensures var (c, e', t') := TreeIo(t, path(PlaceOf(e)), e, mode);
            var (c', e'', m') := StoreIo(m, e, mode);
            c == c' && e' == e'' && Represents(path, t', m')
  {
    var u, a := e.username, PlaceOf(e);
    if u !in m {
      MissingIsENOENT(path, t, m, a);
      MissingIsENOENT(path, t, m, TableOf(u));
    } else {
      assert Known(m, a);
      if mode == MODIFY {
        Rewritten(t, path(a), File(None), File(Some(e)));
        UserChange(m, u, e.part.user);
        PlaceWritten(path, t, m, m[u := Account(e.part.user, m[u].mail)], a);
      }
    }
  }

  lemma AbsentMessageIo(path: Place -> Path, t: Tree, m: Store, e: Entry, mode: Mode)
    requires Scheme(path) && Represents(path, t, m)
    requires mode != OVERWRITE && !Known(m, PlaceOf(e))
    requires e.part.MessagePart? && path(PlaceOf(e)) != []
    ensures var (c, e', t') := TreeIo(t, path(PlaceOf(e)), e, mode);
            var (c', e'', m') := StoreIo(m, e, mode);
            c == c' && e' == e'' && Represents(path, t', m')
  {
    var u, a, msg := e.username, PlaceOf(e), e.part.msg;
    MissingIsENOENT(path, t, m, a);
    if u !in m {
      MissingIsENOENT(path, t, m, MailOf(u));
    } else {
      assert Known(m, MailOf(u));
      if mode == CREATE {
        Rewritten(t, path(a), File(None), File(Some(e)));
        LetterChange(m, u, msg);
        PlaceWritten(path, t, m, SetMail(m, u, m[u].mail[msg.id := msg]), a);
      }
    }
  }

  lemma PresentMessageOpen(path: Place -> Path, t: Tree, m: Store, e: Entry, mode: Mode)
    requires mode == READ || mode == CREATE || mode == MODIFY
    requires Scheme(path) && Represents(path, t, m)
    requires Known(m, PlaceOf(e))
    requires e.part.MessagePart? && path(PlaceOf(e)) != []
    ensures var (c, e', t') := TreeIo(t, path(PlaceOf(e)), e, mode);
            var (c', e'', m') := StoreIo(m, e, mode);
            c == c' && e' == e'' && Represents(path, t', m')
  {
    var u, a, msg := e.username, PlaceOf(e), e.part.msg;
    if mode == MODIFY {
      Rewritten(t, path(a), File(None), File(Some(e)));
      LetterChange(m, u, msg);
      PlaceWritten(path, t, m, SetMail(m, u, m[u].mail[msg.id := msg]), a);
    }
  }

  lemma PresentMessageDelete(path: Place -> Path, t: Tree, m: Store, e: Entry)
    requires Scheme(path) && Represents(path, t, m)
    requires Known(m, PlaceOf(e))
    requires e.part.MessagePart? && path(PlaceOf(e)) != []
    ensures var (c, e', t') := TreeIo(t, path(PlaceOf(e)), e, DELETE);
            var (c', e'', m') := StoreIo(m, e, DELETE);
            c == c' && e' == e'' && Represents(path, t', m')
  {
    var u, id := e.username, e.part.msg.id;
    LetterGone(m, u, id);
    PlaceRemoved(path, t, m, SetMail(m, u, m[u].mail - {id}), PlaceOf(e));
  }

  /** Every operation of `db_io_op_usr_ent` does on the tree what it does on
      the accounts, and returns the same code and entry. */
  lemma IoRefines(path: Place -> Path, t: Tree, m: Store, e: Entry, mode: Mode)
    requires Scheme(path) && Represents(path, t, m)
    requires mode != OVERWRITE && (mode == DELETE ==> e.part.MessagePart? || e.username !in m)
    requires path(PlaceOf(e)) != []
    ensures var (c, e', t') := TreeIo(t, path(PlaceOf(e)), e, mode);
            var (c', e'', m') := StoreIo(m, e, mode);
            c == c' && e' == e'' && Represents(path, t', m')
  {
    if e.part.UserPart? {
      UserIoRefines(path, t, m, e, mode);
    } else {
      if !Known(m, PlaceOf(e)) {
        AbsentMessageIo(path, t, m, e, mode);
      } else if mode == DELETE {
        PresentMessageDelete(path, t, m, e);
      } else {
        PresentMessageOpen(path, t, m, e, mode);
      }
    }
  }

  /** DELETE of user data, which no service asks for, leaves a tree that stands
      for some accounts exactly when the user is unknown. */
  lemma UserDataDelete(path: Place -> Path, t: Tree, m: Store, e: Entry)
    requires Scheme(path) && Represents(path, t, m) && e.part.UserPart? && path(PlaceOf(e)) != []
    ensures var (code, _, t') := TreeIo(t, path(PlaceOf(e)), e, DELETE);
            && (e.username !in m ==> code == DBMS_ERR_NOT_EXISTS && t' == t)
            && (e.username !in m <==> exists m' :: Represents(path, t', m'))
  {
    var u := e.username;
    var t' := TreeIo(t, path(PlaceOf(e)), e, DELETE).2;
    if u !in m {
      MissingIsENOENT(path, t, m, UserOf(u));
    } else {
      assert Known(m, UserOf(u)) && Known(m, TableOf(u));
      FileIsLeaf(t, path(UserOf(u)));
      assert path(TableOf(u)) in t' && path(UserOf(u)) !in t';
      forall m' ensures !Represents(path, t', m') {
        assert Known(m', TableOf(u)) <==> Known(m', UserOf(u));
      }
    }
  }

  /** Reading a message by its identifier fills in an entry whose deletion
      removes that message and nothing else. */
  lemma ReadThenDelete(m: Store, e: Entry)
    requires SelfDescribing(m) && e.part.MessagePart? && StoreIo(m, e, READ).0 == DBMS_SUCCESS
    ensures var u, id, read := e.username, e.part.msg.id, StoreIo(m, e, READ).1;
            && u in m && id in m[u].mail && read == Entry(u, MessagePart(m[u].mail[id]))
            && StoreIo(m, read, DELETE) == (DBMS_SUCCESS, read, SetMail(m, u, m[u].mail - {id}))
  {
  }

  /** The three nodes `db_creat_usr_tbl` makes. */
  ghost function Furnished(path: Place -> Path, t: Tree, u: string, d: UserData): Tree {
    t[path(TableOf(u)) := Directory][path(UserOf(u)) := File(Some(Entry(u, UserPart(d))))][path(MailOf(u)) := Directory]
  }

  lemma FurnishedWellFormed(path: Place -> Path, t: Tree, u: string, d: UserData)
    requires Scheme(path) && WellFormed(t) && IsDirectory(t, USERS)
    requires path(TableOf(u)) !in t && path(UserOf(u)) !in t && path(MailOf(u)) !in t
    ensures WellFormed(Furnished(path, t, u, d))
  {
    var t1 := t[path(TableOf(u)) := Directory];
    var n := File(Some(Entry(u, UserPart(d))));
    StillWellFormed(t, path(TableOf(u)), Directory);
    StillWellFormed(t1, path(UserOf(u)), n);
    StillWellFormed(t1[path(UserOf(u)) := n], path(MailOf(u)), Directory);
  }

  lemma NewcomerKnown(m: Store, u: string, d: UserData)
    requires u !in m
    ensures var m' := m[u := Account(d, map[])];
            && (forall b :: Known(m', b) <==> Known(m, b) || b in {TableOf(u), UserOf(u), MailOf(u)})
            && (forall b :: Known(m, b) ==> NodeAt(m', b) == NodeAt(m, b))
            && (SelfDescribing(m) ==> SelfDescribing(m'))
  {
  }

  /** What the furnished tree holds at each place. */
  lemma FurnishedAt(path: Place -> Path, t: Tree, u: string, d: UserData, b: Place)
    requires Scheme(path)
    ensures var t' := Furnished(path, t, u, d);
            && (path(b) in t' <==> path(b) in t || b in {TableOf(u), UserOf(u), MailOf(u)})
            && (path(b) in t' ==>
                  t'[path(b)] == if b == TableOf(u) || b == MailOf(u) then Directory
                                 else if b == UserOf(u) then File(Some(Entry(u, UserPart(d)))) else t[path(b)])
  {
    assert path(b) == path(TableOf(u)) ==> b == TableOf(u);
    assert path(b) == path(UserOf(u)) ==> b == UserOf(u);
    assert path(b) == path(MailOf(u)) ==> b == MailOf(u);
  }

  lemma TableCreated(path: Place -> Path, t: Tree, m: Store, u: string, d: UserData)
    requires Scheme(path) && Represents(path, t, m) && u !in m && Nameable(u)
    ensures Represents(path, Furnished(path, t, u, d), m[u := Account(d, map[])])
  {
    assert !Known(m, TableOf(u)) && !Known(m, UserOf(u)) && !Known(m, MailOf(u));
    FurnishedWellFormed(path, t, u, d);
    NewcomerKnown(m, u, d);
    var t', m' := Furnished(path, t, u, d), m[u := Account(d, map[])];
    assert IsDirectory(t', USERS);
    forall b ensures path(b) in t' <==> Known(m', b) {
      FurnishedAt(path, t, u, d, b);
    }
    forall b | Known(m', b) ensures t'[path(b)] == NodeAt(m', b) {
      FurnishedAt(path, t, u, d, b);
    }
  }

  /** A user's table lies above exactly that user's places. */
  lemma TableAbove(path: Place -> Path, u: string, a: Place)
    requires Scheme(path)
    ensures path(TableOf(u)) <= path(a) <==> a.user == u
  {
    assert path(a)[..2] == path(TableOf(a.user));
    if path(TableOf(u)) <= path(a) {
      assert path(a)[..2] == path(TableOf(u));
    }
  }

  lemma WithoutWellFormed(t: Tree, p: Path)
    requires WellFormed(t) && p != []
    ensures WellFormed(Without(t, p))
  {
    forall q | q in t && q != [] && !(p <= q) ensures !(p <= Parent(q)) {
      assert p <= Parent(q) ==> p <= q;
    }
  }

  lemma LeaverKnown(m: Store, u: string)
    ensures forall b :: Known(m - {u}, b) <==> Known(m, b) && b.user != u
    ensures forall b :: Known(m - {u}, b) ==> NodeAt(m - {u}, b) == NodeAt(m, b)
    ensures SelfDescribing(m) ==> SelfDescribing(m - {u})
  {
  }

  lemma TableRemoved(path: Place -> Path, t: Tree, m: Store, u: string)
    requires Scheme(path) && Represents(path, t, m) && u in m
    ensures Represents(path, Without(t, path(TableOf(u))), m - {u})
  {
    WithoutWellFormed(t, path(TableOf(u)));
    LeaverKnown(m, u);
    assert |path(TableOf(u))| > |USERS|;
    forall a ensures path(TableOf(u)) <= path(a) <==> a.user == u {
      TableAbove(path, u, a);
    }
  }

  /** The names in a mailbox directory are the printed identifiers of the
      pending messages, and each reads back as its identifier. */
  lemma MailboxNames(path: Place -> Path, t: Tree, m: Store, u: string, name: string)
    requires Scheme(path) && Represents(path, t, m) && u in m
    requires forall i: MsgId :: path(LetterOf(u, i)) == path(MailOf(u)) + [Print(i)]
    ensures name in Children(t, path(MailOf(u))) ==>
              && StrToUint(name).Some?
              && StrToUint(name).value in m[u].mail
              && name == Print(StrToUint(name).value)
              && !IsDot(name)
    ensures forall i :: i in m[u].mail ==> Print(i) in Children(t, path(MailOf(u)))
  {
    var p := path(MailOf(u)) + [name];
    if p in t {
      assert Parent(p) == path(MailOf(u)) && InDatabase(p);
      var a :| p == path(a);
      assert a.LetterOf? && a.user == u by {
        assert |p| == 4;
        assert Parent(path(a)) == path(MailOf(a.user));
      }
      assert path(a)[3] == Print(a.id);
      PrintThenRead(a.id);
      DigitsHaveNoSlash(a.id);
    }
    forall i | i in m[u].mail ensures Print(i) in Children(t, path(MailOf(u))) {
      assert Known(m, LetterOf(u, i));
    }
  }

  /** What looking up a user's table, and removing it, come to. */
  lemma TableLookup(path: Place -> Path, t: Tree, m: Store, u: string)
    requires Scheme(path) && Represents(path, t, m)
    ensures u in m ==> IsDirectory(t, path(TableOf(u))) && IsDirectory(t, path(MailOf(u)))
    ensures u !in m ==> path(TableOf(u)) !in t && Absence(t, path(TableOf(u))) == ENOENT
    ensures u !in m ==> path(MailOf(u)) !in t && Absence(t, path(MailOf(u))) == ENOENT
    ensures Represents(path, if u in m then Without(t, path(TableOf(u))) else t, m - {u})
  {
    if u in m {
      assert Known(m, TableOf(u)) && Known(m, MailOf(u));
      TableRemoved(path, t, m, u);
    } else {
      MissingIsENOENT(path, t, m, TableOf(u));
      MissingIsENOENT(path, t, m, MailOf(u));
      assert m - {u} == m;
    }
  }

  /** A listing of the mailbox directory holds a message name exactly when a
      message is pending, and every such name reads back as a pending one. */
  lemma MailboxListing(path: Place -> Path, t: Tree, m: Store, u: string, names: seq<string>)
    requires Scheme(path) && Represents(path, t, m) && u in m
    requires forall i: MsgId :: path(LetterOf(u, i)) == path(MailOf(u)) + [Print(i)]
    requires forall name :: name in names <==> name in Children(t, path(MailOf(u))) || IsDot(name)
    ensures forall k :: 0 <= k < |names| && !IsDot(names[k]) ==>
              StrToUint(names[k]).Some? && StrToUint(names[k]).value in m[u].mail
    ensures m[u].mail != map[] ==> exists k :: 0 <= k < |names| && !IsDot(names[k])
  {
    forall k | 0 <= k < |names| && !IsDot(names[k])
      ensures StrToUint(names[k]).Some? && StrToUint(names[k]).value in m[u].mail
    {
      assert names[k] in names;
      MailboxNames(path, t, m, u, names[k]);
    }
    if m[u].mail != map[] {
      var i :| i in m[u].mail;
      MailboxNames(path, t, m, u, Print(i));
      assert Print(i) in names;
      var k :| 0 <= k < |names| && names[k] == Print(i);
    }
  }

  /** `db_init_db` where no database directory exists yet: the tree then
      stands for no accounts at all. */
  lemma FreshDatabase(path: Place -> Path, t: Tree)
    requires Scheme(path) && WellFormed(t) && USERS !in t
    ensures var (code, t') := OpenDirectory(t, USERS, OVERWRITE);
            code == DBMS_SUCCESS && Represents(path, t', map[])
  {
    AbsenceByParent(t, USERS);
    StillWellFormed(t, USERS, Directory);
    forall p ensures InDatabase(p) ==> p !in t {
      if InDatabase(p) { NothingBelow(t, p); }
    }
    assert forall a :: InDatabase(path(a));
  }

  /** `db_init_db` where the accounts `m` are on file, as after a restart:
      success, and nothing changes. */
  lemma StoredDatabase(path: Place -> Path, t: Tree, m: Store)
    requires Represents(path, t, m)
    ensures OpenDirectory(t, USERS, OVERWRITE) == (DBMS_SUCCESS, t)
  {
    OpenDirectoryLaw(t, USERS, OVERWRITE);
  }

  lemma NothingBelow(t: Tree, p: Path)
    requires WellFormed(t) && USERS !in t && InDatabase(p)
    ensures p !in t
  {
    assert p[..1] == USERS;
    if p in t { AncestorsPresent(t, p, 1); }
  }
}

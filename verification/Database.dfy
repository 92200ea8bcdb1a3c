/** src/dbms/dbms.c over the file tree. The ghost `store` is the map of
    accounts the tree represents; every method is specified on it. Usernames
    contain no slash, and the operating system refuses no removal. */
module Database {
  import opened Types
  import opened FileTree
  import opened Paths
  import opened Decimal
  import opened Refinement

  const TRUE := 1
  const FALSE := 0

  class Dbms {
    const fs: FileSystem
    ghost var store: Store

    ghost predicate Valid()
      reads this, fs
    {
      fs.stuck == {} && Represents(PathOf, fs.tree, store)
    }

    /** A tree that represents some accounts, as `db_init_db` finds or makes it. */
    constructor (fs: FileSystem, ghost store: Store)
      requires fs.stuck == {} && Represents(PathOf, fs.tree, store)
      ensures Valid() && this.fs == fs && this.store == store
    {
      this.fs, this.store := fs, store;
    }

    /** `db_user_exists`. */
    method UserExists(username: string) returns (result: int)
      requires Valid() && Nameable(username)
      ensures result == if username in store then 1 else 0
    {
      PathsResolve(username, 0);
      PathsFormScheme();
      TableLookup(PathOf, fs.tree, store, username);
      var code := OpenDirectory(fs.tree, Split(TableString(username)), READ).0;
      if code == DBMS_ERR_NOT_EXISTS {
        return FALSE;
      } else if code == DBMS_SUCCESS {
        return TRUE;
      }
      return code;
    }

    /** `db_io_op_usr_ent`. User data on file is never deleted on its own. */
    method IoOperation(entry: Entry, mode: Mode) returns (result: int, filled: Entry)
      requires Valid() && Nameable(entry.username)
      requires mode != OVERWRITE && (mode == DELETE ==> entry.part.MessagePart? || entry.username !in store)
      modifies this`store, fs`tree
      ensures Valid()
      ensures (result, filled, store) == StoreIo(old(store), entry, mode)
    {
      var path := Split(EntryString(entry));
      EntryPathResolves(entry);
      PathsFormScheme();
      IoRefines(PathOf, fs.tree, store, entry, mode);
      ghost var after := StoreIo(store, entry, mode).2;
      result, filled := EntryIo(path, entry, mode);
      store := after;
    }

    /** `db_io_op_usr_ent` once its path is printed, on any tree at all. */
    method EntryIo(path: Path, entry: Entry, mode: Mode) returns (result: int, filled: Entry)
      requires WellFormed(fs.tree) && fs.stuck == {} && path != [] && mode != OVERWRITE
      modifies fs`tree
      ensures (result, filled, fs.tree) == TreeIo(old(fs.tree), path, entry, mode)
    {
      filled := entry;
      if mode == DELETE {
        var removed := fs.RemoveRecursive(path);
        return if removed < 0 then removed else DBMS_SUCCESS, entry;
      }
      var (errno, tree) := OpenFile(fs.tree, path, mode);
      fs.tree := tree;
      if errno != NoError {
        return if errno == ENOENT then DBMS_ERR_NOT_EXISTS else DBMS_ERR_ANY, entry;
      }
      if mode == READ {
        result, filled := ReadEntry(path, entry);
      } else {
        result := WriteEntry(path, entry);
      }
    }

    /** `read_entry`: an unwritten file or a directory yields nothing. */
    method ReadEntry(path: Path, entry: Entry) returns (result: int, filled: Entry)
      requires path in fs.tree
      ensures (result, filled) ==
              if fs.tree[path].File? && fs.tree[path].content.Some?
              then (DBMS_SUCCESS, fs.tree[path].content.value) else (DBMS_ERR_ANY, entry)
    {
      match fs.tree[path]
      case File(Some(stored)) => return DBMS_SUCCESS, stored;
      case _ => return DBMS_ERR_ANY, entry;
    }

    /** `write_entry` on a file just created or truncated. */
    method WriteEntry(path: Path, entry: Entry) returns (result: int)
      modifies fs`tree
      ensures result == DBMS_SUCCESS && fs.tree == old(fs.tree)[path := File(Some(entry))]
    {
      fs.tree := fs.tree[path := File(Some(entry))];
      return DBMS_SUCCESS;
    }

    /** `db_creat_usr_tbl`: table directory, user data, mailbox directory. */
    method CreateTable(entry: Entry) returns (result: int)
      requires Valid() && Nameable(entry.username) && entry.part.UserPart?
      modifies this`store, fs`tree
      ensures Valid()
      ensures result == if entry.username in old(store) then DBMS_ERR_EXISTS else DBMS_SUCCESS
      ensures store == if entry.username in old(store) then old(store)
                       else old(store)[entry.username := Account(entry.part.user, map[])]
    {
      var u := entry.username;
      PathsResolve(u, 0);
      PathsFormScheme();
      ghost var before := fs.tree;
      TableLookup(PathOf, before, store, u);
      if u !in store {
        assert !Known(store, UserOf(u)) && !Known(store, MailOf(u));
        FreshTable(PathOf, before, u, entry.part.user);
        TableCreated(PathOf, before, store, u, entry.part.user);
      }

      var table := Split(TableString(u));
      var (code, tree) := OpenDirectory(fs.tree, table, CREATE);
      fs.tree := tree;
      if code == DBMS_ERR_EXISTS {
        return DBMS_ERR_EXISTS;
      } else if code < 0 {
        return DBMS_ERR_ANY;
      }
      var file := Split(UserString(u));
      var (errno, tree') := OpenFile(fs.tree, file, CREATE);
      fs.tree := tree';
      if errno != NoError {
        return DBMS_ERR_ANY;
      }
      var written := WriteEntry(file, entry);
      var (code', tree'') := OpenDirectory(fs.tree, Split(MailString(u)), CREATE);
      fs.tree := tree'';
      if code' < 0 {
        return DBMS_ERR_ANY;
      }
      store := store[u := Account(entry.part.user, map[])];
      return DBMS_SUCCESS;
    }

    /** `db_del_usr_tbl`. */
    method DeleteTable(username: string) returns (result: int)
      requires Valid() && Nameable(username)
      modifies this`store, fs`tree
      ensures Valid()
      ensures result == if username in old(store) then 0 else DBMS_ERR_NOT_EXISTS
      ensures store == old(store) - {username}
    {
      PathsResolve(username, 0);
      PathsFormScheme();
      TableLookup(PathOf, fs.tree, store, username);
      ghost var after := store - {username};
      var path := Split(TableString(username));
      ghost var present := path in fs.tree;
      assert present <==> username in store;
      assert Subtree(fs.tree, path) !! fs.stuck;
      result := fs.RemoveRecursive(path);
      assert result == 0 <==> present;
      store := after;
    }

    /** `db_get_pend_msg`: some pending message, whichever file the directory
        lists first; the caller's entry is overwritten with the file's. */
    method GetPendingMessage(entry: Entry) returns (result: int, filled: Entry)
      requires Valid() && Nameable(entry.username) && entry.part.MessagePart?
      modifies this`store, fs`tree
      ensures Valid() && store == old(store)
      ensures result == if entry.username !in store then DBMS_ERR_ANY
                        else if store[entry.username].mail == map[] then DBMS_ERR_NOT_EXISTS
                        else DBMS_SUCCESS
      ensures result < 0 ==> filled == entry
      ensures result == DBMS_SUCCESS ==>
                && filled.username == entry.username && filled.part.MessagePart?
                && filled.part.msg.id in store[entry.username].mail
                && filled.part.msg == store[entry.username].mail[filled.part.msg.id]
    {
      var u := entry.username;
      filled := entry;
      MailboxOpens(u, fs.tree, store);
      var path := Split(MailString(u));
      if OpenDirectory(fs.tree, path, READ).0 < 0 {
        return DBMS_ERR_ANY, entry;
      }
      var names := fs.ReadDirectory(path);
      PathsFormScheme();
      MailboxListing(PathOf, fs.tree, store, u, names);
      var i := FirstMessageName(names);
      if i < |names| {
        result, filled := ReadNamed(entry, names[i]);
        return;
      }
      return DBMS_ERR_NOT_EXISTS, entry;
    }

    /** The listing loop: the position of the first name that is no dot name. */
    method FirstMessageName(names: seq<string>) returns (i: nat)
      ensures i <= |names| && (forall k :: 0 <= k < i ==> IsDot(names[k]))
      ensures i < |names| ==> !IsDot(names[i])
    {
      i := 0;
      while i < |names| && IsDot(names[i])
        invariant i <= |names| && (forall k :: 0 <= k < i ==> IsDot(names[k]))
      {
        i := i + 1;
      }
    }

    /** The body of the listing loop once a message file is found. */
    method ReadNamed(entry: Entry, name: string) returns (result: int, filled: Entry)
      requires Valid() && Nameable(entry.username) && entry.part.MessagePart?
      requires entry.username in store && StrToUint(name).Some?
      requires StrToUint(name).value in store[entry.username].mail
      modifies this`store, fs`tree
      ensures Valid() && store == old(store)
      ensures result == DBMS_SUCCESS
      ensures var i := StrToUint(name).value;
              filled == Entry(entry.username, MessagePart(store[entry.username].mail[i]))
    {
      var id := StrToUint(name).value;
      var read;
      read, filled := IoOperation(entry.(part := MessagePart(entry.part.msg.(id := id))), READ);
      return DBMS_SUCCESS, filled;
    }
  }

  /** `db_init_db`: a server that starts finds the accounts it left, or none. */
  method InitDb(fs: FileSystem, ghost m: Store) returns (code: int)
    requires WellFormed(fs.tree) && (IsDirectory(fs.tree, USERS) ==> Represents(PathOf, fs.tree, m))
    modifies fs`tree
    ensures code == if USERS in old(fs.tree) && old(fs.tree)[USERS].File? then DBMS_ERR_ANY else DBMS_SUCCESS
    ensures USERS in old(fs.tree) ==> fs.tree == old(fs.tree)
    ensures code == DBMS_SUCCESS ==> Represents(PathOf, fs.tree, if USERS in old(fs.tree) then m else map[])
  {
    PathsFormScheme();
    if USERS !in fs.tree {
      FreshDatabase(PathOf, fs.tree);
    } else if IsDirectory(fs.tree, USERS) {
      StoredDatabase(PathOf, fs.tree, m);
    }
    var (result, tree) := OpenDirectory(fs.tree, USERS, OVERWRITE);
    fs.tree := tree;
    return if result < 0 then DBMS_ERR_ANY else DBMS_SUCCESS;
  }

  /** The mailbox directory opens exactly for registered users, and holds no
      name that the listing loop would skip. */
  lemma MailboxOpens(u: string, t: Tree, m: Store)
    requires Represents(PathOf, t, m) && Nameable(u)
    ensures var path := Split(MailString(u));
            && path == PathOf(MailOf(u))
            && OpenDirectory(t, path, READ).0 == (if u in m then DBMS_SUCCESS else DBMS_ERR_NOT_EXISTS)
            && (u in m ==> IsDirectory(t, path) && forall name :: name in Children(t, path) ==> !IsDot(name))
  {
    PathsResolve(u, 0);
    PathsFormScheme();
    TableLookup(PathOf, t, m, u);
    if u in m {
      forall name: string ensures name in Children(t, PathOf(MailOf(u))) ==> !IsDot(name) {
        NoDotNames(t, m, u, name);
      }
    }
  }

  lemma NoDotNames(t: Tree, m: Store, u: string, name: string)
    requires Scheme(PathOf) && Represents(PathOf, t, m) && u in m
    ensures name in Children(t, PathOf(MailOf(u))) ==> !IsDot(name)
  {
    MailboxNames(PathOf, t, m, u, name);
  }

  /** The three creations of `db_creat_usr_tbl` succeed on a fresh table and
      furnish it. */
  lemma FreshTable(path: Place -> Path, t: Tree, u: string, d: UserData)
    requires Scheme(path) && WellFormed(t) && IsDirectory(t, USERS)
    requires path(TableOf(u)) !in t && path(UserOf(u)) !in t && path(MailOf(u)) !in t
    requires path(TableOf(u)) != [] && path(UserOf(u)) != [] && path(MailOf(u)) != []
    requires Absence(t, path(TableOf(u))) == ENOENT
    ensures var (c1, t1) := OpenDirectory(t, path(TableOf(u)), CREATE);
            var (e2, t2) := OpenFile(t1, path(UserOf(u)), CREATE);
            var t3 := t2[path(UserOf(u)) := File(Some(Entry(u, UserPart(d))))];
            var (c4, t4) := OpenDirectory(t3, path(MailOf(u)), CREATE);
            && c1 == DBMS_SUCCESS && e2 == NoError && c4 == DBMS_SUCCESS
            && t4 == Furnished(path, t, u, d)
  {
    var n := File(Some(Entry(u, UserPart(d))));
    var t1 := t[path(TableOf(u)) := Directory];
    var t3 := t1[path(UserOf(u)) := n];
    Rewritten(t1, path(UserOf(u)), File(None), n);
    StillWellFormed(t, path(TableOf(u)), Directory);
    StillWellFormed(t1, path(UserOf(u)), n);
    AbsenceByParent(t3, path(MailOf(u)));
  }
}

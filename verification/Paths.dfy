/** The path strings src/dbms/dbms.c prints for users, mailboxes and entries,
    and the paths the operating system resolves them to. */
module Paths {
  import opened Types
  import opened FileTree
  import opened Decimal

  const DB_DIR := "users"
  const TABLE_SUFFIX := "-table"
  const USERDATA_ENTRY := "userdata.entry"
  const PEND_MSGS_TABLE := "pend_msgs-table"

  /** Resolution of a relative path string: its names, cut at the slashes. */
  function Split(s: string): (p: Path)
    ensures p != []
  {
    if s == "" then [""] else
      var rest := Split(s[1..]);
      if s[0] == '/' then [""] + rest else [[s[0]] + rest[0]] + rest[1..]
  }

  // The strings the code prints

  function TableString(u: string): string { DB_DIR + "/" + (u + TABLE_SUFFIX) }

  function UserString(u: string): string { TableString(u) + "/" + USERDATA_ENTRY }

  function MailString(u: string): string { TableString(u) + "/" + PEND_MSGS_TABLE }

  function LetterString(u: string, id: MsgId): string { MailString(u) + "/" + Print(id) }

  /** The path of an entry, by its type. */
  function EntryString(e: Entry): string {
    match e.part
    case UserPart(_) => UserString(e.username)
    case MessagePart(m) => LetterString(e.username, m.id)
  }

  /** `entry_len`: the size of the buffer the path is printed into. */
  function EntryLength(e: Entry): int {
    |DB_DIR| + |e.username| + 9 +
    if e.part.UserPart? then |USERDATA_ENTRY| else |PEND_MSGS_TABLE| + 1 + MSG_ID_MAX_STR_SIZE
  }

  // The paths they stand for

  /** The nodes that make up a user's part of the tree. */
  datatype Place =
    | TableOf(user: string)
    | UserOf(user: string)
    | MailOf(user: string)
    | LetterOf(user: string, id: MsgId)

  const USERS: Path := [DB_DIR]

  function TableName(u: string): string { u + TABLE_SUFFIX }

  function PathOf(place: Place): Path {
    match place
    case TableOf(u) => [DB_DIR, TableName(u)]
    case UserOf(u) => [DB_DIR, TableName(u), USERDATA_ENTRY]
    case MailOf(u) => [DB_DIR, TableName(u), PEND_MSGS_TABLE]
    case LetterOf(u, i) => [DB_DIR, TableName(u), PEND_MSGS_TABLE, Print(i)]
  }

  function PlaceOf(e: Entry): Place {
    match e.part
    case UserPart(_) => UserOf(e.username)
    case MessagePart(m) => LetterOf(e.username, m.id)
  }

  predicate Nameable(u: string) { '/' !in u }

  lemma {:induction false} SplitOne(s: string)
    requires '/' !in s
    ensures Split(s) == [s]
  {
    if s != "" {
      SplitOne(s[1..]);
      assert [s[0]] + s[1..] == s;
    }
  }

  lemma {:induction false} SplitAt(s: string, rest: string)
    requires '/' !in s
    ensures Split(s + "/" + rest) == [s] + Split(rest)
  {
    if s == "" {
      assert s + "/" + rest == "/" + rest;
      assert ("/" + rest)[1..] == rest;
    } else {
      assert (s + "/" + rest)[1..] == s[1..] + "/" + rest;
      SplitAt(s[1..], rest);
      assert [s[0]] + s[1..] == s;
    }
  }

  lemma SplitTwo(a: string, b: string)
    requires '/' !in a && '/' !in b
    ensures Split(a + "/" + b) == [a, b]
  {
    SplitAt(a, b);
    SplitOne(b);
  }

  lemma SplitThree(a: string, b: string, c: string)
    requires '/' !in a && '/' !in b && '/' !in c
    ensures Split(a + "/" + b + "/" + c) == [a, b, c]
  {
    SplitTwo(b, c);
    SplitAt(a, b + "/" + c);
    assert a + "/" + b + "/" + c == a + "/" + (b + "/" + c);
  }

  lemma SplitFour(a: string, b: string, c: string, d: string)
    requires '/' !in a && '/' !in b && '/' !in c && '/' !in d
    ensures Split(a + "/" + b + "/" + c + "/" + d) == [a, b, c, d]
  {
    SplitThree(b, c, d);
    SplitAt(a, b + "/" + c + "/" + d);
    assert a + "/" + b + "/" + c + "/" + d == a + "/" + (b + "/" + c + "/" + d);
  }

  lemma FixedNames()
    ensures '/' !in DB_DIR && '/' !in TABLE_SUFFIX && '/' !in USERDATA_ENTRY && '/' !in PEND_MSGS_TABLE
    ensures USERDATA_ENTRY != PEND_MSGS_TABLE
  {
    assert USERDATA_ENTRY[0] != PEND_MSGS_TABLE[0];
  }

  /** For usernames without a slash every printed path names the intended node. */
  lemma PathsResolve(u: string, id: MsgId)
    requires Nameable(u)
    ensures Split(TableString(u)) == PathOf(TableOf(u))
    ensures Split(UserString(u)) == PathOf(UserOf(u))
    ensures Split(MailString(u)) == PathOf(MailOf(u))
    ensures Split(LetterString(u, id)) == PathOf(LetterOf(u, id))
  {
    FixedNames();
    DigitsHaveNoSlash(id);
    SplitTwo(DB_DIR, TableName(u));
    SplitThree(DB_DIR, TableName(u), USERDATA_ENTRY);
    SplitThree(DB_DIR, TableName(u), PEND_MSGS_TABLE);
    SplitFour(DB_DIR, TableName(u), PEND_MSGS_TABLE, Print(id));
  }

  /** The strings the code prints, spelled out. */
  lemma PathsSpelled(u: string, id: MsgId)
    ensures TableString(u) == "users/" + u + "-table"
    ensures UserString(u) == "users/" + u + "-table/userdata.entry"
    ensures MailString(u) == "users/" + u + "-table/pend_msgs-table"
    ensures LetterString(u, id) == "users/" + u + "-table/pend_msgs-table/" + Print(id)
  {
    assert "users/" == "users" + "/";
    assert "-table/userdata.entry" == "-table" + "/" + "userdata.entry";
    assert "-table/pend_msgs-table" == "-table" + "/" + "pend_msgs-table";
    assert "-table/pend_msgs-table/" == "-table/pend_msgs-table" + "/";
  }

  lemma EntryPathResolves(e: Entry)
    requires Nameable(e.username)
    ensures Split(EntryString(e)) == PathOf(PlaceOf(e))
  {
    PathsResolve(e.username, if e.part.MessagePart? then e.part.msg.id else 0);
  }

  /** The printed path and its NUL always fit the buffer, and fill it to the
      last byte for user data and for ten-digit identifiers. */
  lemma EntryPathFits(e: Entry)
    ensures |EntryString(e)| + 1 <= EntryLength(e)
    ensures |EntryString(e)| + 1 == EntryLength(e) <==>
            e.part.UserPart? || e.part.msg.id >= 1_000_000_000
  {
    if e.part.MessagePart? {
      IdNameFits(e.part.msg.id);
    }
  }

  lemma TableNameInjective(u: string, v: string)
    requires TableName(u) == TableName(v)
    ensures u == v
  {
    assert u == TableName(u)[..|TableName(u)| - |TABLE_SUFFIX|];
    assert v == TableName(v)[..|TableName(v)| - |TABLE_SUFFIX|];
  }

  /** Strictly below the database directory. */
  predicate InDatabase(p: Path) { |p| >= 2 && p[0] == DB_DIR }

  /** What the refinement proofs need of the layout of paths. */
  ghost predicate Scheme(path: Place -> Path) {
    && (forall a, b :: path(a) == path(b) ==> a == b)
    && (forall u :: |path(TableOf(u))| == 2 && Parent(path(TableOf(u))) == USERS)
    && (forall u :: |path(UserOf(u))| == 3 && Parent(path(UserOf(u))) == path(TableOf(u)))
    && (forall u :: |path(MailOf(u))| == 3 && Parent(path(MailOf(u))) == path(TableOf(u)))
    && (forall a :: InDatabase(path(a)))
    && (forall u, i :: |path(LetterOf(u, i))| == 4 && Parent(path(LetterOf(u, i))) == path(MailOf(u)))
  }

  lemma PathOfInjective(a: Place, b: Place)
    requires PathOf(a) == PathOf(b)
    ensures a == b
  {
    assert PathOf(a)[1] == PathOf(b)[1];
    TableNameInjective(a.user, b.user);
    assert |PathOf(a)| == |PathOf(b)|;
    if |PathOf(a)| == 3 {
      assert PathOf(a)[2] == PathOf(b)[2];
      FixedNames();
    }
    if a.LetterOf? {
      assert PathOf(a)[3] == PathOf(b)[3];
      PrintInjective(a.id, b.id);
    }
  }

  /** Different users and different identifiers never share a node, and every
      node hangs where its user's table says. */
  lemma PathsFormScheme()
    ensures Scheme(PathOf)
  {
    forall a, b | PathOf(a) == PathOf(b) ensures a == b {
      PathOfInjective(a, b);
    }
  }
}

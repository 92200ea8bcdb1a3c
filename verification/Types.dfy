/** Entities shared by every layer of the message server: user data, messages,
    database entries, and the numeric codes of include/DS-Lab-Assignment/util.h. */
module Types {

  datatype Option<+T> = None | Some(value: T)

  /** The C `unsigned int` that names a message. */
  type MsgId = n: int | 0 <= n < 0x1_0000_0000

  const MSG_ID_MAX_VALUE: int := 4294967295
  const MSG_ID_MAX_STR_SIZE := 10

  /** The next identifier: an `unsigned int` sum, which wraps, and then the
      remainder, so that identifiers run through 0 .. MSG_ID_MAX_VALUE - 1. */
  function NextId(last: MsgId): MsgId {
    ((last + 1) % 0x1_0000_0000) % MSG_ID_MAX_VALUE
  }

  datatype Status = Disconnected | Connected

  datatype UserData = UserData(status: Status, ip: int, port: int, lastMsgId: MsgId)

  datatype Message = Message(sender: string, id: MsgId, content: string)

  /** The union inside `entry_t`, tagged by its `type` member. */
  datatype Payload = UserPart(user: UserData) | MessagePart(msg: Message)

  datatype Entry = Entry(username: string, part: Payload)

  type Mailbox = map<MsgId, Message>

  datatype Account = Account(data: UserData, mail: Mailbox)

  /** What the file tree stands for: one account per registered user. */
  type Store = map<string, Account>

  function SetData(s: Store, u: string, d: UserData): Store
    requires u in s
  {
    s[u := Account(d, s[u].mail)]
  }

  function SetMail(s: Store, u: string, mail: Mailbox): Store
    requires u in s
  {
    s[u := Account(s[u].data, mail)]
  }

  /** Every pending message carries the identifier it is filed under. */
  ghost predicate SelfDescribing(s: Store) {
    forall u, i :: u in s && i in s[u].mail ==> s[u].mail[i].id == i
  }

  lemma OneLess(mail: Mailbox, id: MsgId)
    requires id in mail
    ensures |mail| == |mail - {id}| + 1
  {
    assert mail.Keys == (mail - {id}).Keys + {id};
    assert |mail.Keys| == |mail| && |(mail - {id}).Keys| == |mail - {id}|;
  }

  // Server error codes
  const SRV_SUCCESS := 0
  const SRV_ERR_REG_USR_ALREADY_REG := 1
  const SRV_ERR_UNREG_USR_NOT_EXISTS := 1
  const SRV_ERR_UNREG_ANY := 2
  const SRV_ERR_CN_USR_NOT_EXISTS := 1
  const SRV_ERR_CN_USR_ALREADY_CN := 2
  const SRV_ERR_CN_ANY := 3
  const SRV_ERR_DCN_USR_NOT_EXISTS := 1
  const SRV_ERR_DCN_USR_NOT_CN := 2
  const SRV_ERR_DCN_ANY := 3
  const SRV_ERR_SEND_USR_NOT_EXISTS := 1
  const SRV_ERR_SEND_ANY := 2

  // General and database codes
  const GEN_ERR_ANY := -1
  const GEN_ERR_INV_ARGS := -2
  const DBMS_SUCCESS := 100
  const DBMS_ERR_ANY := -100
  const DBMS_ERR_NOT_EXISTS := -101
  const DBMS_ERR_EXISTS := -102
}

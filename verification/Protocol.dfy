/**
 Requests, replies and status values shared by the server and the client
 (include/chat/protocol.h and the messages under protos/).
 */
module Protocol {
  import opened LengthField
  import opened Framing

  datatype Status = ACTIVE | DO_NOT_DISTURB | INVISIBLE

  // The enum value of a ChangeStatus message; proto3 lets any integer through.
  function StatusOf(value: int): Option<Status> {
    if value == 0 then Some(ACTIVE)
    else if value == 1 then Some(DO_NOT_DISTURB)
    else if value == 2 then Some(INVISIBLE)
    else None
  }

  /** A message from a client. None (or parsed == false) stands for a payload that does not parse. */
  datatype Request =
    | Register(name: Option<string>)
    | MessageGeneral(text: Option<string>)
    | MessageDm(dm: Option<(string, string)>) // destination, text
    | ChangeStatus(value: Option<int>)
    | ListUsers(parsed: bool)
    | GetUserInfo(target: Option<string>)
    | Quit(parsed: bool)
    | Unknown(kind: byte)

  const OK_REGISTER := 200
  const OK_STATUS_CHANGED := 201
  const OK_DM_SENT := 202
  const OK_QUIT := 203
  const BAD_REQUEST := 400
  const NOT_REGISTERED := 401
  const USER_NOT_FOUND := 404
  const USERNAME_TAKEN := 409
  const IP_TAKEN := 410
  const AUTO_INACTIVE := 602
  const STATUS_RESTORED := 603

  /** A message from the server. `about` is the status named in the text of a 201. */
  datatype Frame =
    | Response(code: int, about: Option<Status>)
    | AllUsers(rows: seq<(string, Status)>)
    | ForDm(sender: string, text: string)
    | BroadcastDelivery(text: string, origin: string)
    | UserInfo(ip: string, name: string, status: Status)

  function Reply(code: int): Frame {
    Response(code, None)
  }

  function Kind(f: Frame): byte {
    match f
    case Response(_, _) => 10
    case AllUsers(_) => 11
    case ForDm(_, _) => 12
    case BroadcastDelivery(_, _) => 13
    case UserInfo(_, _, _) => 14
  }

  /** How the message library turns a frame into a payload: any function will do. */
  type Serializer = Frame -> seq<byte>

  function AsMessage(ser: Serializer, f: Frame): Message {
    Message(Kind(f), ser(f))
  }

  function Bytes(ser: Serializer, f: Frame): seq<byte> {
    Encode(AsMessage(ser, f))
  }

  function AsMessages(ser: Serializer, fs: seq<Frame>): (ms: seq<Message>)
    ensures |ms| == |fs| && forall i | 0 <= i < |fs| :: ms[i] == AsMessage(ser, fs[i])
  {
    seq(|fs|, i requires 0 <= i < |fs| => AsMessage(ser, fs[i]))
  }

  // The replies that turn a request down.
  predicate Refusal(f: Frame) {
    f == Reply(BAD_REQUEST) || f == Reply(NOT_REGISTERED) || f == Reply(USERNAME_TAKEN) || f == Reply(IP_TAKEN)
  }
}

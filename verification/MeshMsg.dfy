/** The messages of the mesh, over any representation of text. */
module MeshMsg {
  import opened Wrappers

  type U64 = n: int | 0 <= n < 0x1_0000_0000_0000_0000
  type U32 = n: int | 0 <= n < 0x1_0000_0000

  datatype Lane = Control | Declare | Request | Data
  datatype Role = Router | Client
  datatype DeclKind = Token | Sub | Qabl
  datatype TokenEvtKind = Put | Delete | BatchEnd
  datatype CloseReason = Shutdown | Expired | Fenced | Replaced | Refused | Duplicate | Protocol | Io

  datatype Peer<S> = Peer(node: S, addr: S)

  datatype Hello<S> = Hello(proto: Byte, role: Role, node: S, boot: U64, sno: U64, leaseMs: U32,
                            listen: seq<S>, peers: seq<Peer<S>>)

  datatype Msg<S> =
    | Greet(hello: Hello<S>)
    | Close(reason: CloseReason)
    | KeepAlive
    | DeclareIt(kind: DeclKind, id: U64, expr: S)
    | Undeclare(kind: DeclKind, id: U64)
    | DeclareDone
    | TokenSub(id: U64, expr: S, history: bool)
    | TokenUnsub(id: U64)
    | TokenEvt(id: U64, evt: TokenEvtKind, key: S)
    | Peers(peers: seq<Peer<S>>)
    | PutIt(key: S, payload: Bytes)
    | Ask(qid: U64, expr: S, payload: Bytes, timeoutMs: U32)
    | Reply(qid: U64, key: S, ok: bool, payload: Bytes)
    | Final(qid: U64)
  {
    function LaneOf(): Lane {
      match this
      case Greet(_) => Lane.Control
      case Close(_) => Lane.Control
      case KeepAlive => Lane.Control
      case Ask(_, _, _, _) => Lane.Request
      case Reply(_, _, _, _) => Lane.Request
      case Final(_) => Lane.Request
      case PutIt(_, _) => Lane.Data
      case _ => Lane.Declare
    }
  }
}

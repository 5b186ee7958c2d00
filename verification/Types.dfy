/** The value types that the network layer passes around: addresses, messages,
    commands, replies and events. */
module Types {
  datatype Option<+T> = None | Some(value: T)

  datatype Result<+T, +E> = Ok(value: T) | Err(error: E)

  type Byte = b: int | 0 <= b < 256

  type PeerId = string

  type Address = string

  type MessageId = nat

  datatype Message =
    | Ping(content: string)
    | Pong(content: string)
    | Announce(peerAddr: Address)
    | Transaction(txId: nat, payload: seq<Byte>)
    | Propagation(varId: nat, newValue: seq<Byte>)

  /** Send errors, without their free-form text. */
  datatype SendError = UnreachableAddress(addr: Address) | ConnectionLost | ProtocolError

  datatype NodeType = Server | BrowserClient(relayServer: Address)

  datatype NetworkCommand =
    | SendMessage(addr: Address, msg: Message)
    | Listen(addr: Address)
    | GetLocalAddresses
    | ListenViaRelay(relayAddr: Address)

  /** Why a command failed; stands for the text of a failure reply. */
  datatype Refusal = InvalidAddress | ListenRejected | DialRejected | EventLoopDropped | RelayUnsupported

  datatype NetworkReply =
    | MessageSent(id: MessageId)
    | ListenSuccess(addr: Address)
    | LocalAddresses(addrs: seq<Address>)
    | Failure(reason: Refusal)

  datatype NetworkEvent =
    | MessageReceived(peer: PeerId, msg: Message)
    | SendFailed(id: MessageId, error: SendError)
    | PeerConnected(peer: PeerId)
    | PeerDisconnected(peer: PeerId)

  /** A message together with its id: one element of a parked queue. */
  datatype Item = Item(id: MessageId, msg: Message)
}

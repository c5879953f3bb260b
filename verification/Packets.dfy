/** The packets, events and errors that the connection engine exchanges with its host.

    A packet is what the engine looks at: the payload of a PUBLISH is carried along, other packet
    bodies are reduced to the fields the engine reads plus their encoded remaining length.
 */
module Packets {

  datatype Option<+T> = None | Some(value: T)

  /** Packet identifiers are 16 bits wide; 0 is never allocated. */
  const MAX_ID: nat := 0xFFFF

  /** No packet is longer than a fixed header, four length bytes and 128^4 bytes of body. */
  const NO_SIZE_LIMIT: nat := 1 + 4 + 128 * 128 * 128 * 128

  const MAX_REMAINING: nat := 0x0FFF_FFFF

  type Byte = b: nat | b < 256

  type Topic = seq<Byte>

  datatype Version = V3_1_1 | V5_0 | Undetermined

  datatype Role = Client | Server | AnyRole

  datatype Qos = AtMostOnce | AtLeastOnce | ExactlyOnce

  datatype TimerKind = PingreqSend | PingreqRecv | PingrespRecv

  datatype MqttError =
    | MalformedPacket | ProtocolError | UnsupportedProtocolVersion | ClientIdentifierNotValid
    | BadUserNameOrPassword | ReceiveMaximumExceeded | TopicAliasInvalid | PacketTooLarge
    | PacketIdentifierFullyUsed | PacketIdentifierInvalid | PacketIdentifierConflict
    | PacketNotAllowedToSend | VersionMismatch | KeepAliveTimeout | InsufficientBytes | OtherError

  type U16 = n: nat | n <= 0xFFFF

  /** The v5.0 properties of CONNECT and CONNACK that the engine reacts to. */
  datatype Prop =
    | TopicAliasMaximum(max: U16)
    | ReceiveMaximum(val: nat)
    | MaximumPacketSize(val: nat)
    | SessionExpiryInterval(val: nat)
    | ServerKeepAlive(val: nat)
    | OtherProp

  /** `otherProps` is the encoded size of all properties but TopicAlias. */
  datatype Publish = Publish(
    topic: Topic, qos: Qos, dup: bool, retain: bool, pid: nat,
    alias: Option<nat>, otherProps: nat, extracted: bool, payload: seq<Byte>)

  /** `rem` is the remaining length, `rc` an optional reason code. */
  datatype Packet =
    | Connect(clean: bool, keepAlive: nat, props: seq<Prop>, rem: nat)
    | Connack(accepted: bool, sessionPresent: bool, props: seq<Prop>, rem: nat)
    | PublishPacket(pub: Publish)
    | Puback(pid: nat, rc: Option<nat>, rem: nat)
    | Pubrec(pid: nat, rc: Option<nat>, rem: nat)
    | Pubrel(pid: nat, rc: Option<nat>, rem: nat)
    | Pubcomp(pid: nat, rc: Option<nat>, rem: nat)
    | Subscribe(pid: nat, rem: nat)
    | Suback(pid: nat, rem: nat)
    | Unsubscribe(pid: nat, rem: nat)
    | Unsuback(pid: nat, rem: nat)
    | Pingreq
    | Pingresp
    | Disconnect(why: Option<MqttError>, rem: nat)
    | Auth(rem: nat)

  datatype Event =
    | NotifyPacketReceived(packet: Packet)
    | RequestSendPacket(packet: Packet, releaseIfError: Option<nat>)
    | NotifyPacketIdReleased(id: nat)
    | RequestTimerReset(kind: TimerKind, ms: nat)
    | RequestTimerCancel(kind: TimerKind)
    | NotifyError(error: MqttError)
    | RequestClose

  /** What the packet builder and the packet parsers make of one frame: a packet, or a packet type
      whose body does not parse. `level` is the protocol level byte of a CONNECT body, `excess` the number of
      body bytes that printing the packet would not need (ignored or overlong ones). */
  datatype Frame =
    | Good(packet: Packet, level: nat, excess: nat := 0)
    | Bad(ptype: nat, error: MqttError, bodyLen: nat, level: nat)

  function TypeCode(p: Packet): nat {
    match p
    case Connect(_, _, _, _) => 1
    case Connack(_, _, _, _) => 2
    case PublishPacket(_) => 3
    case Puback(_, _, _) => 4
    case Pubrec(_, _, _) => 5
    case Pubrel(_, _, _) => 6
    case Pubcomp(_, _, _) => 7
    case Subscribe(_, _) => 8
    case Suback(_, _) => 9
    case Unsubscribe(_, _) => 10
    case Unsuback(_, _) => 11
    case Pingreq => 12
    case Pingresp => 13
    case Disconnect(_, _) => 14
    case Auth(_) => 15
  }

  /** Bytes a variable byte integer takes. */
  function VbiSize(n: nat): nat {
    if n < 128 then 1 else if n < 16384 then 2 else if n < 2097152 then 3 else 4
  }

  function TotalSize(remaining: nat): nat {
    1 + VbiSize(remaining) + remaining
  }

  function PublishRemaining(v: Version, p: Publish): nat {
    var props := p.otherProps + (if p.alias.Some? then 3 else 0);
    2 + |p.topic| + (if p.qos.AtMostOnce? then 0 else 2)
    + (if v.V5_0? then VbiSize(props) + props else 0)
    + |p.payload|
  }

  function Remaining(v: Version, p: Packet): nat {
    match p
    case PublishPacket(pub) => PublishRemaining(v, pub)
    case Pingreq => 0
    case Pingresp => 0
    case _ => p.rem
  }

  function Size(v: Version, p: Packet): nat {
    TotalSize(Remaining(v, p))
  }

  predicate HasWildcard(t: Topic) {
    35 in t || 43 in t
  }
}

/** Values and objects of the I2P network protocol (I2NP) that an inbound
    tunnel endpoint handles: identity hashes, tunnel ids, messages, delivery
    instructions and the handle of a selected outbound tunnel. Wire formats
    are not modelled; a message is a type tag with its fields. */
module I2np {

  datatype Option<+T> = None | Some(value: T)

  type Bytes = seq<bv8>

  /** A router or destination identity hash, compared by content
      (`Hash.equals`); a null `Hash` is `None`. */
  type Hash = Bytes

  /** A tunnel id; a null `TunnelId` is `None`. */
  type TunnelId = nat

  /** Exclusive upper bound of message unique ids, `(1 << 32) - 1` as
      `I2NPMessage.MAX_ID_VALUE` declares it. */
  const MAX_ID_VALUE: int := 0xFFFF_FFFF

  /** What `random().nextLong(MAX_ID_VALUE)` can return. */
  type UniqueId = x: int | 0 <= x < MAX_ID_VALUE

  /** Value types of a database store, as `DatabaseStoreMessage` declares them. */
  const KEY_TYPE_ROUTERINFO: int := 0
  const KEY_TYPE_LEASESET: int := 1

  /** Delivery modes, as `DeliveryInstructions` declares them; any other
      value is an unknown mode. */
  const DELIVERY_MODE_LOCAL: int := 0
  const DELIVERY_MODE_DESTINATION: int := 1
  const DELIVERY_MODE_ROUTER: int := 2
  const DELIVERY_MODE_TUNNEL: int := 3

  /** The message types the distributor tells apart; every other I2NP type
      is `OtherBody` with its type number. */
  datatype Body =
    | GarlicBody(encrypted: Bytes)
    | DatabaseStoreBody(key: Hash, valueType: int, leaseSet: Option<Bytes>, routerInfo: Option<Bytes>)
    | DataBody(data: Bytes)
    | OtherBody(messageType: int)

  /** A snapshot of a message: what a collaborator receives when it is handed one. */
  datatype Msg = Msg(body: Body, uniqueId: int, expiration: int)

  /** An I2NP message object; only its expiration is ever changed in place. */
  class Message {
    const body: Body
    const uniqueId: int
    var expiration: int

    constructor (body: Body, uniqueId: int, expiration: int)
      ensures Value() == Msg(body, uniqueId, expiration)
    {
      this.body := body;
      this.uniqueId := uniqueId;
      this.expiration := expiration;
    }

    function Value(): Msg
      reads this
    {
      Msg(body, uniqueId, expiration)
    }
  }

  /** A complete tunnel gateway message: `message` to be injected into the
      tunnel `tunnelId` this router is the gateway of. */
  datatype GatewayMsg = GatewayMsg(message: Msg, tunnelId: TunnelId, expiration: int, uniqueId: int)

  /** A `TunnelGatewayMessage` under construction, filled in by its setters.
      The defaults the message constructor gives expiration and unique id
      are always overwritten before the message is sent and are written 0. */
  class TunnelGatewayMessage {
    var message: Option<Msg>
    var tunnelId: Option<TunnelId>
    var expiration: int
    var uniqueId: int

    constructor ()
      ensures message == None && tunnelId == None
    {
      message := None;
      tunnelId := None;
      expiration := 0;
      uniqueId := 0;
    }

    predicate Complete()
      reads this
    {
      message.Some? && tunnelId.Some?
    }

    function Value(): GatewayMsg
      reads this
      requires Complete()
    {
      GatewayMsg(message.value, tunnelId.value, expiration, uniqueId)
    }
  }

  /** Delivery instructions of a clove: the mode and the targets that came
      with it, each possibly absent. */
  datatype DeliveryInstructions = DeliveryInstructions(
    deliveryMode: int,
    destination: Option<Hash>,
    router: Option<Hash>,
    tunnelId: Option<TunnelId>)

  /** An outbound tunnel returned by the tunnel manager; only the send
      tunnel id of its first hop (`getSendTunnelId(0)`) is used. */
  datatype TunnelInfo = TunnelInfo(firstSendTunnelId: Option<TunnelId>)
}

/** The routing policy of the inbound tunnel endpoint as functions: which
    branch `distribute` takes, what `handleClove` does for each delivery
    mode, and which collaborator calls (effects) result. The distributor
    class in module Distributor is proved to perform exactly these. */
module Policy {
  import opened I2np

  /** The lifetime a message forwarded from here must have left: 10 seconds. */
  const MAX_DISTRIBUTE_TIME: int := 10 * 1000

  /** The fixed context of one distributor: this router's identity hash and
      the client the tunnel is bound to (None for an exploratory tunnel). */
  datatype Context = Context(routerHash: Hash, client: Option<Hash>)

  /** What one call learns from its surroundings: one clock reading, one
      draw of the random generator, the tunnel manager's outbound tunnel
      selection by client, and whether the network database accepts a
      store (it signals a rejection with IllegalArgumentException). */
  datatype Env = Env(
    now: int,
    randomId: UniqueId,
    selectOutbound: Option<Hash> -> Option<TunnelInfo>,
    storeAccepted: bool)

  /** The record handed to the network database. */
  datatype StoreRecord = LeaseSetRecord(leaseSet: Option<Bytes>) | RouterInfoRecord(routerInfo: Option<Bytes>)

  /** Why a message was discarded; the source only logs these. */
  datatype DropReason =
    | NoOutboundTunnel
    | NoOutboundId
    | NotDataMessage
    | DestinationMismatch
    | StoreRejected
    | UnknownMode

  /** One call into a collaborator, or the discard of the message. */
  datatype Effect =
    | PoolAdd(msg: Msg)                       // inNetMessagePool().add(msg, null, null)
    | GarlicReceive(msg: Msg)                 // the garlic receiver's receive(msg)
    | GatewayDispatch(gateway: GatewayMsg)    // tunnelDispatcher().dispatch(gw)
    | OutboundDispatch(msg: Msg, outId: TunnelId, tunnel: Option<TunnelId>, target: Hash)
    | NetDbStore(key: Hash, record: StoreRecord)
    | ClientDeliver(dest: Hash, payload: Bytes)
    | Drop(reason: DropReason)
  {
    /** A message handed to the tunnel dispatcher, in either direction. */
    predicate IsTunnelDispatch() {
      GatewayDispatch? || OutboundDispatch?
    }
  }

  /** The effects of one call, in order, and the expiration of the handled
      message after it. */
  datatype Step = Step(effects: seq<Effect>, expiration: int)

  datatype Route = LocalDelivery | GatewayLoopback | RemoteIndirect

  /** The number of tunnel dispatches in a trace. */
  function TunnelDispatches(t: seq<Effect>): nat
  {
    if t == [] then 0
    else (if t[0].IsTunnelDispatch() then 1 else 0) + TunnelDispatches(t[1..])
  }

  lemma {:induction false} TunnelDispatchesAppend(a: seq<Effect>, b: seq<Effect>)
    ensures TunnelDispatches(a + b) == TunnelDispatches(a) + TunnelDispatches(b)
  {
    if a == [] {
      assert a + b == b;
    } else {
      assert (a + b)[1..] == a[1..] + b;
      TunnelDispatchesAppend(a[1..], b);
    }
  }

  /** Whether some effect of the trace delivers to a local client. */
  predicate ReachesClient(t: seq<Effect>)
  {
    exists i | 0 <= i < |t| :: t[i].ClientDeliver?
  }

  /** The anonymity rules for one effect: nothing is sent out through a
      tunnel towards this router itself, and client deliveries go only to
      the client the tunnel is bound to. */
  predicate SafeEffect(ctx: Context, e: Effect)
  {
    (e.OutboundDispatch? ==> e.target != ctx.routerHash) &&
    (e.ClientDeliver? ==> ctx.client == Some(e.dest))
  }

  predicate TraceSafe(ctx: Context, t: seq<Effect>)
  {
    forall i | 0 <= i < |t| :: SafeEffect(ctx, t[i])
  }

  lemma TraceSafeAppend(ctx: Context, a: seq<Effect>, b: seq<Effect>)
    requires TraceSafe(ctx, a) && TraceSafe(ctx, b)
    ensures TraceSafe(ctx, a + b)
  {
  }

  /** Everything forwarded into a tunnel leaves with at least
      MAX_DISTRIBUTE_TIME to live, measured from `now`. */
  predicate ForwardsFresh(now: int, t: seq<Effect>)
  {
    forall i | 0 <= i < |t| ::
      (t[i].OutboundDispatch? ==> t[i].msg.expiration >= now + MAX_DISTRIBUTE_TIME) &&
      (t[i].GatewayDispatch? ==> t[i].gateway.expiration >= now + MAX_DISTRIBUTE_TIME)
  }

  /** The branch `distribute` takes for a target router and tunnel. */
  function SelectRoute(own: Hash, target: Option<Hash>, tunnel: Option<TunnelId>): (r: Route)
    ensures r == LocalDelivery <==> target.None? || (tunnel.None? && target.value == own)
    ensures r == GatewayLoopback <==> target == Some(own) && tunnel.Some?
    ensures r == RemoteIndirect <==> target.Some? && target.value != own
  {
    if target.None? || (tunnel.None? && own == target.value) then LocalDelivery
    else if own == target.value then GatewayLoopback
    else RemoteIndirect
  }

  /** Local hand-off: a garlic message to the garlic receiver, anything
      else to the inbound message pool. */
  function LocalHandOff(m: Msg): Effect
  {
    if m.body.GarlicBody? then GarlicReceive(m) else PoolAdd(m)
  }

  /** `distribute(msg, target, tunnel)`: one effect per call, at most one
      tunnel dispatch, and the expiration moved only forward, only on the
      remote branch and only to now + MAX_DISTRIBUTE_TIME. */
  function DistributeStep(ctx: Context, m: Msg, target: Option<Hash>, tunnel: Option<TunnelId>, env: Env): (s: Step)
    ensures |s.effects| == 1
    ensures s.expiration >= m.expiration
    ensures s.expiration != m.expiration ==>
      SelectRoute(ctx.routerHash, target, tunnel) == RemoteIndirect && s.expiration == env.now + MAX_DISTRIBUTE_TIME
    ensures TunnelDispatches(s.effects) <= 1
    ensures TraceSafe(ctx, s.effects)
    ensures ForwardsFresh(env.now, s.effects)
  {
    match SelectRoute(ctx.routerHash, target, tunnel)
    case LocalDelivery =>
      Step([LocalHandOff(m)], m.expiration)
    case GatewayLoopback =>
      var gw := GatewayMsg(m, tunnel.value, env.now + MAX_DISTRIBUTE_TIME, env.randomId);
      Step([GatewayDispatch(gw)], m.expiration)
    case RemoteIndirect =>
      match env.selectOutbound(ctx.client)
      case None => Step([Drop(NoOutboundTunnel)], m.expiration)
      case Some(out) =>
        match out.firstSendTunnelId
        case None => Step([Drop(NoOutboundId)], m.expiration)
        case Some(outId) =>
          var exp := if m.expiration < env.now + MAX_DISTRIBUTE_TIME then env.now + MAX_DISTRIBUTE_TIME else m.expiration;
          Step([OutboundDispatch(m.(expiration := exp), outId, tunnel, target.value)], exp)
  }

  /** The record a database store message is stored as. */
  function StoreRecordOf(valueType: int, leaseSet: Option<Bytes>, routerInfo: Option<Bytes>): StoreRecord
  {
    if valueType == KEY_TYPE_LEASESET then LeaseSetRecord(leaseSet) else RouterInfoRecord(routerInfo)
  }

  /** `handleClove(instructions, data)`: at most one tunnel dispatch, no
      expiration moved backwards, and only safe effects. */
  function CloveStep(ctx: Context, instr: DeliveryInstructions, m: Msg, env: Env): (s: Step)
    ensures 1 <= |s.effects| <= 2
    ensures s.expiration >= m.expiration
    ensures TunnelDispatches(s.effects) <= 1
    ensures TraceSafe(ctx, s.effects)
    ensures ForwardsFresh(env.now, s.effects)
  {
    if instr.deliveryMode == DELIVERY_MODE_LOCAL then
      if m.body.GarlicBody? then Step([GarlicReceive(m)], m.expiration)
      else if m.body.DatabaseStoreBody? then
        var store := NetDbStore(m.body.key, StoreRecordOf(m.body.valueType, m.body.leaseSet, m.body.routerInfo));
        var rejection := if env.storeAccepted then [] else [Drop(StoreRejected)];
        TunnelDispatchesAppend([store], rejection);
        Step([store] + rejection, m.expiration)
      else Step([PoolAdd(m)], m.expiration)
    else if instr.deliveryMode == DELIVERY_MODE_DESTINATION then
      if !m.body.DataBody? then Step([Drop(NotDataMessage)], m.expiration)
      else if ctx.client.Some? && instr.destination == ctx.client then
        Step([ClientDeliver(ctx.client.value, m.body.data)], m.expiration)
      else Step([Drop(DestinationMismatch)], m.expiration)
    else if instr.deliveryMode == DELIVERY_MODE_ROUTER || instr.deliveryMode == DELIVERY_MODE_TUNNEL then
      DistributeStep(ctx, m, instr.router, instr.tunnelId, env)
    else Step([Drop(UnknownMode)], m.expiration)
  }

  // ---------------------------------------------------------------------
  // distribute

  /** No target, or this router as target without a tunnel: delivered
      here, to exactly one local sink, with no tunnel dispatch. */
  lemma LocalBranch(ctx: Context, m: Msg, target: Option<Hash>, tunnel: Option<TunnelId>, env: Env)
    requires target.None? || (tunnel.None? && target.value == ctx.routerHash)
    ensures var s := DistributeStep(ctx, m, target, tunnel, env);
      s.expiration == m.expiration &&
      (m.body.GarlicBody? ==> s.effects == [GarlicReceive(m)]) &&
      (!m.body.GarlicBody? ==> s.effects == [PoolAdd(m)]) &&
      TunnelDispatches(s.effects) == 0
  {
  }

  /** This router as target with a tunnel: exactly one gateway message,
      wrapping the original message unchanged, for that tunnel, living
      MAX_DISTRIBUTE_TIME, with a fresh id below MAX_ID_VALUE; nothing goes
      out through an outbound tunnel. */
  lemma GatewayBranch(ctx: Context, m: Msg, target: Option<Hash>, tunnel: Option<TunnelId>, env: Env)
    requires target == Some(ctx.routerHash) && tunnel.Some?
    ensures var s := DistributeStep(ctx, m, target, tunnel, env);
      |s.effects| == 1 && s.effects[0].GatewayDispatch? &&
      s.effects[0].gateway.message == m &&
      s.effects[0].gateway.tunnelId == tunnel.value &&
      s.effects[0].gateway.expiration == env.now + MAX_DISTRIBUTE_TIME &&
      s.effects[0].gateway.uniqueId == env.randomId &&
      0 <= s.effects[0].gateway.uniqueId < MAX_ID_VALUE &&
      s.expiration == m.expiration &&
      TunnelDispatches(s.effects) == 1
  {
  }

  /** Another router as target but no usable outbound tunnel: the message
      is dropped, nothing is dispatched and its expiration is untouched. */
  lemma RemoteDrop(ctx: Context, m: Msg, target: Option<Hash>, tunnel: Option<TunnelId>, env: Env)
    requires target.Some? && target.value != ctx.routerHash
    requires env.selectOutbound(ctx.client).None? || env.selectOutbound(ctx.client).value.firstSendTunnelId.None?
    ensures var s := DistributeStep(ctx, m, target, tunnel, env);
      s.expiration == m.expiration &&
      s.effects == [Drop(if env.selectOutbound(ctx.client).None? then NoOutboundTunnel else NoOutboundId)] &&
      TunnelDispatches(s.effects) == 0
  {
  }

  /** Another router as target and an outbound tunnel with a send id: the
      message goes out through that tunnel to (target, tunnel), its
      expiration raised to at least now + MAX_DISTRIBUTE_TIME and kept
      when it was already that late. */
  lemma RemoteForward(ctx: Context, m: Msg, target: Option<Hash>, tunnel: Option<TunnelId>, env: Env)
    requires target.Some? && target.value != ctx.routerHash
    requires env.selectOutbound(ctx.client).Some? && env.selectOutbound(ctx.client).value.firstSendTunnelId.Some?
    ensures var s := DistributeStep(ctx, m, target, tunnel, env);
      var outId := env.selectOutbound(ctx.client).value.firstSendTunnelId.value;
      s.effects == [OutboundDispatch(m.(expiration := s.expiration), outId, tunnel, target.value)] &&
      s.expiration >= m.expiration &&
      s.expiration >= env.now + MAX_DISTRIBUTE_TIME &&
      (s.expiration == m.expiration || s.expiration == env.now + MAX_DISTRIBUTE_TIME) &&
      (m.expiration >= env.now + MAX_DISTRIBUTE_TIME ==> s.expiration == m.expiration)
  {
  }

  // ---------------------------------------------------------------------
  // handleClove

  /** A local clove: garlic to the garlic receiver; a database store to the
      network database under its own key, as a lease set exactly when its
      value type says so, a rejection adding nothing but the discard;
      anything else to the inbound message pool. */
  lemma LocalClove(ctx: Context, instr: DeliveryInstructions, m: Msg, env: Env)
    requires instr.deliveryMode == DELIVERY_MODE_LOCAL
    ensures var s := CloveStep(ctx, instr, m, env);
      s.expiration == m.expiration &&
      TunnelDispatches(s.effects) == 0 &&
      (m.body.GarlicBody? ==> s.effects == [GarlicReceive(m)]) &&
      (m.body.DatabaseStoreBody? ==>
        s.effects[0].NetDbStore? && s.effects[0].key == m.body.key &&
        (s.effects[0].record.LeaseSetRecord? <==> m.body.valueType == KEY_TYPE_LEASESET) &&
        (s.effects[0].record.LeaseSetRecord? ==> s.effects[0].record.leaseSet == m.body.leaseSet) &&
        (s.effects[0].record.RouterInfoRecord? ==> s.effects[0].record.routerInfo == m.body.routerInfo) &&
        (env.storeAccepted ==> |s.effects| == 1) &&
        (!env.storeAccepted ==> s.effects == [s.effects[0], Drop(StoreRejected)])) &&
      (!m.body.GarlicBody? && !m.body.DatabaseStoreBody? ==> s.effects == [PoolAdd(m)])
  {
    var s := CloveStep(ctx, instr, m, env);
    if m.body.DatabaseStoreBody? {
      TunnelDispatchesAppend([s.effects[0]], s.effects[1..]);
      assert s.effects == [s.effects[0]] + s.effects[1..];
    }
  }

  /** A destination clove reaches a client if and only if it is a data
      message, the tunnel is bound to a client and that client is the
      instructions' destination; it then delivers the data bytes to that
      client, and otherwise it is only dropped. */
  lemma DestinationClove(ctx: Context, instr: DeliveryInstructions, m: Msg, env: Env)
    requires instr.deliveryMode == DELIVERY_MODE_DESTINATION
    ensures var s := CloveStep(ctx, instr, m, env);
      s.expiration == m.expiration &&
      (ReachesClient(s.effects) <==>
        m.body.DataBody? && ctx.client.Some? && instr.destination == ctx.client) &&
      (ReachesClient(s.effects) ==> s.effects == [ClientDeliver(ctx.client.value, m.body.data)]) &&
      (!ReachesClient(s.effects) ==> |s.effects| == 1 && s.effects[0].Drop?)
  {
  }

  /** A router or tunnel clove is routed exactly as `distribute` routes the
      message to the instructions' router and tunnel. */
  lemma RouterOrTunnelClove(ctx: Context, instr: DeliveryInstructions, m: Msg, env: Env)
    requires instr.deliveryMode == DELIVERY_MODE_ROUTER || instr.deliveryMode == DELIVERY_MODE_TUNNEL
    ensures CloveStep(ctx, instr, m, env) == DistributeStep(ctx, m, instr.router, instr.tunnelId, env)
  {
  }

  /** A clove with an unknown mode is only dropped. */
  lemma UnknownClove(ctx: Context, instr: DeliveryInstructions, m: Msg, env: Env)
    requires instr.deliveryMode !in {DELIVERY_MODE_LOCAL, DELIVERY_MODE_DESTINATION, DELIVERY_MODE_ROUTER, DELIVERY_MODE_TUNNEL}
    ensures CloveStep(ctx, instr, m, env) == Step([Drop(UnknownMode)], m.expiration)
  {
  }
}

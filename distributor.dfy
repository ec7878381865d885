/** The inbound tunnel endpoint's distributor as an object: it changes the
    expiration of the message it forwards in place, builds the tunnel
    gateway message field by field, and records every call it makes into a
    collaborator in a ghost trace. Each method is proved to do exactly what
    the functions of module Policy say. */
module Distributor {
  import opened I2np
  import opened Policy

  class InboundMessageDistributor {
    /** This router's identity hash (`_context.routerHash()`). */
    const routerHash: Hash
    /** The client the tunnel is bound to, `_client`; None when unbound. */
    const client: Option<Hash>
    /** Every collaborator call made so far, in order. */
    ghost var trace: seq<Effect>

    function Ctx(): Context
    {
      Context(routerHash, client)
    }

    /** The trace never shows a forward towards this router through an
        outbound tunnel, nor a delivery to any client but its own. */
    ghost predicate Valid()
      reads this
    {
      TraceSafe(Ctx(), trace)
    }

    constructor (routerHash: Hash, client: Option<Hash>)
      ensures this.routerHash == routerHash && this.client == client
      ensures trace == [] && Valid()
    {
      this.routerHash := routerHash;
      this.client := client;
      trace := [];
    }

    /** `distribute(msg, target)`: the same as with no tunnel. */
    method DistributeWithoutTunnel(msg: Message, target: Option<Hash>, env: Env)
      requires Valid()
      modifies this, msg
      ensures Valid()
      ensures trace == old(trace) + DistributeStep(Ctx(), old(msg.Value()), target, None, env).effects
      ensures msg.expiration == DistributeStep(Ctx(), old(msg.Value()), target, None, env).expiration
      ensures TunnelDispatches(trace) <= TunnelDispatches(old(trace)) + 1
    {
      Distribute(msg, target, None, env);
    }

    /** `distribute(msg, target, tunnel)`. */
    method Distribute(msg: Message, target: Option<Hash>, tunnel: Option<TunnelId>, env: Env)
      requires Valid()
      modifies this, msg
      ensures Valid()
      ensures trace == old(trace) + DistributeStep(Ctx(), old(msg.Value()), target, tunnel, env).effects
      ensures msg.expiration == DistributeStep(Ctx(), old(msg.Value()), target, tunnel, env).expiration
      ensures TunnelDispatches(trace) <= TunnelDispatches(old(trace)) + 1
    {
      ghost var before := trace;
      ghost var step := DistributeStep(Ctx(), msg.Value(), target, tunnel, env);
      if target.None? || (tunnel.None? && routerHash == target.value) {
        // targeting this router, implicitly or explicitly without a tunnel
        if msg.body.GarlicBody? {
          trace := trace + [GarlicReceive(msg.Value())];
        } else {
          trace := trace + [PoolAdd(msg.Value())];
        }
      } else if routerHash == target.value {
        // this router is also the gateway of the requested tunnel
        var gw := new TunnelGatewayMessage();
        gw.message := Some(msg.Value());
        gw.tunnelId := tunnel;
        gw.expiration := env.now + 10 * 1000;
        gw.uniqueId := env.randomId;
        trace := trace + [GatewayDispatch(gw.Value())];
      } else {
        // a remote target is reached only through one of our own outbound tunnels
        var out := env.selectOutbound(client);
        if out.None? {
          trace := trace + [Drop(NoOutboundTunnel)];
        } else {
          var outId := out.value.firstSendTunnelId;
          if outId.None? {
            trace := trace + [Drop(NoOutboundId)];
          } else {
            if msg.expiration < env.now + 10 * 1000 {
              msg.expiration := env.now + 10 * 1000;
            }
            trace := trace + [OutboundDispatch(msg.Value(), outId.value, tunnel, target.value)];
          }
        }
      }
      TraceSafeAppend(Ctx(), before, step.effects);
      TunnelDispatchesAppend(before, step.effects);
    }

    /** `handleClove(instructions, data)`, called for each clove of a garlic
        message received here. */
    method HandleClove(instr: DeliveryInstructions, msg: Message, env: Env)
      requires Valid()
      modifies this, msg
      ensures Valid()
      ensures trace == old(trace) + CloveStep(Ctx(), instr, old(msg.Value()), env).effects
      ensures msg.expiration == CloveStep(Ctx(), instr, old(msg.Value()), env).expiration
      ensures TunnelDispatches(trace) <= TunnelDispatches(old(trace)) + 1
    {
      ghost var before := trace;
      ghost var step := CloveStep(Ctx(), instr, msg.Value(), env);
      if instr.deliveryMode == DELIVERY_MODE_LOCAL {
        if msg.body.GarlicBody? {
          trace := trace + [GarlicReceive(msg.Value())];
        } else if msg.body.DatabaseStoreBody? {
          // stored directly, so that it is not republished or flooded
          var dsm := msg.body;
          var record := if dsm.valueType == KEY_TYPE_LEASESET then LeaseSetRecord(dsm.leaseSet)
                        else RouterInfoRecord(dsm.routerInfo);
          trace := trace + [NetDbStore(dsm.key, record)];
          if !env.storeAccepted {
            trace := trace + [Drop(StoreRejected)];
          }
        } else {
          trace := trace + [PoolAdd(msg.Value())];
        }
      } else if instr.deliveryMode == DELIVERY_MODE_DESTINATION {
        if !msg.body.DataBody? {
          trace := trace + [Drop(NotDataMessage)];
        } else if client.Some? && client == instr.destination {
          trace := trace + [ClientDeliver(client.value, msg.body.data)];
        } else {
          trace := trace + [Drop(DestinationMismatch)];
        }
      } else if instr.deliveryMode == DELIVERY_MODE_ROUTER || instr.deliveryMode == DELIVERY_MODE_TUNNEL {
        // routed again, so that a clove cannot make this router reveal more
        Distribute(msg, instr.router, instr.tunnelId, env);
        return;
      } else {
        trace := trace + [Drop(UnknownMode)];
      }
      TraceSafeAppend(Ctx(), before, step.effects);
      TunnelDispatchesAppend(before, step.effects);
    }
  }
}

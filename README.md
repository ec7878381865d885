# Inbound tunnel endpoint distribution, modelled in Dafny

When a message leaves an inbound tunnel at its endpoint router, I2P's
`InboundMessageDistributor` decides what happens to it. It must never let the
message's instructions make this router talk to a remote router directly,
because that would reveal its place in the tunnel. The model covers the two
entry points:

- `distribute(msg, target[, tunnel])` takes exactly one of three branches:
  - **local delivery**: no target, or this router without a tunnel; a garlic
    message goes to the garlic receiver, anything else to the inbound pool;
  - **gateway loopback**: this router with a tunnel; the message is wrapped
    in a tunnel gateway message and injected into that tunnel;
  - **remote**: another router; the message goes out through one of this
    router's own outbound tunnels, or is dropped when there is none. Before
    it is sent, its expiration is raised to at least now + 10 s.
- `handleClove(instructions, data)` handles one clove of a garlic message by
  its delivery mode: local, destination, router or tunnel (routed again
  through `distribute`), or unknown.

Files:

- `i2np.dfy` (module `I2np`): hashes, tunnel ids, the message types the
  distributor tells apart, delivery instructions, the selected outbound
  tunnel, the `Message` object (its expiration is changed in place) and the
  `TunnelGatewayMessage` object (filled in by its setters).
- `policy.dfy` (module `Policy`): the policy as functions. `SelectRoute` picks
  the branch. `DistributeStep` and `CloveStep` return the collaborator calls
  (`Effect`s) of one call and the message's new expiration. One lemma per
  property.
- `distributor.dfy` (module `Distributor`): the class
  `InboundMessageDistributor`. Its methods change the message in place and
  append each collaborator call to a ghost `trace`. Each is proved to do
  exactly what `DistributeStep` or `CloveStep` say, and to keep the trace
  invariant `Valid()`.
- `findings.dfy` (module `Findings`): the destination branch as written,
  including its null dereference (see Findings).

Inputs from outside are parameters, in `Policy.Env`:

- one clock reading `now`;
- one draw `randomId` of the random generator, in `[0, MAX_ID_VALUE)`;
- the tunnel manager's `selectOutboundTunnel`, as a function of the client;
- the network database's verdict on a store.

A discarded message is recorded as `Drop(reason)`. That record stands for the
log line the source writes and reaches no collaborator.

Constants declared outside the modelled file are written with the values
those classes give them: `I2NPMessage.MAX_ID_VALUE` = 2^32 - 1,
`DatabaseStoreMessage.KEY_TYPE_LEASESET` = 1, and the `DeliveryInstructions`
modes local 0, destination 1, router 2, tunnel 3.

## Model

| member | source | states |
|---|---|---|
| `Policy.SelectRoute` | router/java/src/net/i2p/router/tunnel/InboundMessageDistributor.java:52-75 | exactly one branch for every (target, tunnel): local iff no target, or no tunnel and target is this router; gateway loopback iff target is this router and a tunnel is given; remote iff there is a target and it is another router |
| `Policy.DistributeStep` | router/java/src/net/i2p/router/tunnel/InboundMessageDistributor.java:40-98 | one effect per call, at most one tunnel dispatch; expiration never decreases and changes only on the remote branch, to now + 10 s; no outbound forward towards this router; everything forwarded lives at least 10 s longer |
| `Policy.LocalBranch` | router/java/src/net/i2p/router/tunnel/InboundMessageDistributor.java:52-63 | local delivery: garlic goes only to the garlic receiver, any other message is added to the inbound pool exactly once, nothing is dispatched to a tunnel, expiration unchanged |
| `Policy.GatewayBranch` | router/java/src/net/i2p/router/tunnel/InboundMessageDistributor.java:64-74 | own hash with a tunnel: exactly one gateway dispatch wrapping the original message, for that tunnel, expiring at now + 10 s, unique id the random draw in [0, MAX_ID_VALUE); no outbound dispatch; the message's own expiration unchanged |
| `Policy.RemoteDrop` | router/java/src/net/i2p/router/tunnel/InboundMessageDistributor.java:78-93 | remote target with no outbound tunnel, or one without a send id at hop 0: only a drop, no dispatch, expiration unchanged |
| `Policy.RemoteForward` | router/java/src/net/i2p/router/tunnel/InboundMessageDistributor.java:87-96 | remote target with a usable tunnel: one outbound dispatch to (target, tunnel) via the tunnel's send id, carrying the message with expiration max(old, now + 10 s), never decreased and kept when already at least now + 10 s |
| `Policy.CloveStep` | router/java/src/net/i2p/router/tunnel/InboundMessageDistributor.java:104-166 | at most one tunnel dispatch per clove, expiration never decreased, client deliveries only to the bound client, no forward towards this router |
| `Policy.LocalClove` | router/java/src/net/i2p/router/tunnel/InboundMessageDistributor.java:106-130 | local clove: garlic to the receiver; a database store under its own key, as a lease set iff its value type is KEY_TYPE_LEASESET, else as router info, a rejection adding only the drop; anything else to the inbound pool |
| `Policy.DestinationClove` | router/java/src/net/i2p/router/tunnel/InboundMessageDistributor.java:131-153 | a client is reached iff the message is a data message, the tunnel is bound to a client and that client equals the destination; the delivery goes to that client with the data bytes; otherwise only a drop |
| `Policy.RouterOrTunnelClove` | router/java/src/net/i2p/router/tunnel/InboundMessageDistributor.java:154-160 | a router or tunnel clove behaves exactly as distribute(data, instructions' router, instructions' tunnel id) |
| `Policy.UnknownClove` | router/java/src/net/i2p/router/tunnel/InboundMessageDistributor.java:161-164 | an unknown mode produces only a drop, expiration unchanged |
| `Distributor.InboundMessageDistributor.constructor` | router/java/src/net/i2p/router/tunnel/InboundMessageDistributor.java:30-35 | keeps the router hash and the bound client; empty trace |
| `Distributor.InboundMessageDistributor.DistributeWithoutTunnel` | router/java/src/net/i2p/router/tunnel/InboundMessageDistributor.java:37-39 | the two-argument overload does exactly what distribute does with no tunnel |
| `Distributor.InboundMessageDistributor.Distribute` | router/java/src/net/i2p/router/tunnel/InboundMessageDistributor.java:40-98 | appends exactly DistributeStep's effects to the trace and sets the message's expiration in place to DistributeStep's; keeps the trace invariant; adds at most one tunnel dispatch |
| `Distributor.InboundMessageDistributor.HandleClove` | router/java/src/net/i2p/router/tunnel/InboundMessageDistributor.java:104-166 | appends exactly CloveStep's effects and sets the expiration to CloveStep's; keeps the trace invariant; adds at most one tunnel dispatch |
| `Findings.DestinationCloveAsWritten` | router/java/src/net/i2p/router/tunnel/InboundMessageDistributor.java:131-153 | the destination branch as written, with the NullPointerException of line 151; when it returns, exactly one effect |
| `Findings.MissingDestinationThrows` | router/java/src/net/i2p/router/tunnel/InboundMessageDistributor.java:146-151 | a data message in a destination clove without destination throws, whatever the bound client, when error logging is on |
| `Findings.AsWrittenAgreesWhenReturning` | router/java/src/net/i2p/router/tunnel/InboundMessageDistributor.java:131-153 | where the code as written returns, its effects are CloveStep's |
| `Findings.MissingDestinationDropped` | router/java/src/net/i2p/router/tunnel/InboundMessageDistributor.java:146-153 | in the corrected model a destination clove without destination is only dropped |

## Left out

- Logging: no behaviour depends on it. Its one consequence, the null
  dereference at line 151, is written out in `Findings`.
- The client-disconnect check at lines 43-50 is commented out in the source.
- The garlic receiver (`GarlicMessageReceiver`): decryption and clove
  extraction are its own. Handing it a garlic message is the effect
  `GarlicReceive`. The calls it makes back into `handleClove` are not
  modelled; each such call is one `HandleClove`. Building it in the
  constructor is not modelled either.
- The collaborators' internals are out of scope: the network database, the
  tunnel dispatcher, the client manager, the inbound message pool and the
  tunnel manager's selection. Their calls are effects. Their answers are
  inputs in `Env`.
- The client message and payload objects built at lines 139-144 are not
  modelled. The `ClientDeliver` effect records their destination hash and
  encrypted data.
- The clock: the source may read it twice on the remote branch (lines 94-95).
  The model uses one reading per call.
- The random generator is one input already in `[0, MAX_ID_VALUE)`.
- Java `long` overflow of `now + 10*1000` is not modelled; integers are
  unbounded.
- `distribute` tests for garlic by the message type number; `handleClove`
  uses `instanceof GarlicMessage`. The model treats both as the same test,
  `GarlicBody?`.
- The defaults that `TunnelGatewayMessage`'s constructor gives its
  expiration and unique id are not modelled. Both are overwritten before the
  message is sent.
- Concurrency: the distributor's only state is set in its constructor.
- Wire formats and serialisation of I2NP messages.
- No depth limit on nested garlic: in this code the recursion goes back
  through the garlic receiver, which is not part of this model.

## Findings

| source | as written | input that shows it | evidently intended | confidence | as-written member | corrected member |
|---|---|---|---|---|---|---|
| router/java/src/net/i2p/router/tunnel/InboundMessageDistributor.java:146-151 | the mismatch log line calls `instructions.getDestination().toBase64()`; it guards `_client` against null but not the destination | destination-mode instructions with no destination, carrying a DataMessage, with error logging on (any `_client`) | the mismatch is logged and the clove dropped, as for every other mismatch | low, not executed; the instruction parser, which is not part of this model, may always fill in the destination | `Findings.MissingDestinationThrows` | `Findings.MissingDestinationDropped` |
